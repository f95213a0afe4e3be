/** The rules luaflac_toflac_streammetadata enforces on a Lua table, and the guarantee
    that every block it builds is one libFLAC can hold. */
module MetadataRules {
  import opened MachineInt
  import opened CLib
  import opened Lua
  import opened Int64Convert
  import opened FlacMetadata
  import opened MetadataRead

  /** The key the body of a block of a known type is read from. */
  function BodyKey(kind: u32): string
    requires kind <= PICTURE
  {
    if kind == STREAMINFO then "stream_info"
    else if kind == PADDING then "padding"
    else if kind == APPLICATION then "application"
    else if kind == SEEKTABLE then "seek_table"
    else if kind == VORBIS_COMMENT then "vorbis_comment"
    else if kind == CUESHEET then "cue_sheet"
    else "picture"
  }

  /** The message raised for a missing body sub-table, as the binding spells it. */
  function MissingBodyMessage(kind: u32): string
    requires kind <= PICTURE
  {
    if kind == STREAMINFO then "missing key: stream_info"
    else if kind == PADDING then "missing key: padding"
    else if kind == APPLICATION then "missing key: application"
    else if kind == SEEKTABLE then "missing key: seek_table"
    else if kind == VORBIS_COMMENT then "missing key: vorbis_comment"
    else if kind == CUESHEET then "missing key: cue_sheet"
    else "missing key: picture"
  }

  /** Each of those messages names the key that is missing. */
  lemma MissingBodyMessageNamesKey(kind: u32)
    requires kind <= PICTURE
    ensures MissingBodyMessage(kind) == "missing key: " + BodyKey(kind)
  {
    if kind == STREAMINFO {
      assert "missing key: " + "stream_info" == "missing key: stream_info";
    } else if kind == PADDING {
      assert "missing key: " + "padding" == "missing key: padding";
    } else if kind == APPLICATION {
      assert "missing key: " + "application" == "missing key: application";
    } else if kind == SEEKTABLE {
      assert "missing key: " + "seek_table" == "missing key: seek_table";
    } else if kind == VORBIS_COMMENT {
      assert "missing key: " + "vorbis_comment" == "missing key: vorbis_comment";
    } else if kind == CUESHEET {
      assert "missing key: " + "cue_sheet" == "missing key: cue_sheet";
    } else {
      assert "missing key: " + "picture" == "missing key: picture";
    }
  }

  /** A block table without the sub-table of its type is refused with the key's name. */
  lemma MissingBodyRefused(block: Value, lib: Library)
    requires block.Table? && KindOf(block) <= PICTURE
    requires !Field(block, BodyKey(KindOf(block))).Table?
    ensures ToFlacSpec(block, lib) == Err(Raised("missing key: " + BodyKey(KindOf(block))))
  {
    var kind := KindOf(block);
    MissingBodyMessageNamesKey(kind);
    var base := Record(kind, OptBool(block, "is_last", false), InitialLength(kind, lib.vendor), DefaultBody(kind, lib.vendor));
    assert ToFlacSpec(block, lib) == BodyOf(block, lib, base);
    assert BodyOf(block, lib, base) == Err(Raised(MissingBodyMessage(kind)));
  }

  /** A seek table without a points table is refused. */
  lemma MissingPointsRefused(block: Value, lib: Library)
    requires block.Table? && KindOf(block) == SEEKTABLE
    requires Field(block, "seek_table").Table? && !Field(Field(block, "seek_table"), "points").Table?
    ensures ToFlacSpec(block, lib) == Err(Raised("missing key: points"))
  {
  }

  /** The type codes the binding cannot convert: past FLAC__MAX_METADATA_TYPE libFLAC
      allocates nothing; between PICTURE and it, the type is unknown. */
  lemma UnknownTypesRefused(block: Value, lib: Library)
    requires block.Table? && PICTURE < KindOf(block)
    ensures KindOf(block) <= MAX_METADATA_TYPE ==> ToFlacSpec(block, lib) == Err(Raised("unknown metadata type"))
    ensures MAX_METADATA_TYPE < KindOf(block) ==> ToFlacSpec(block, lib) == Err(Raised("memory error"))
  {
  }

  /** A table without a type field, whose stream_info table is empty, is a STREAMINFO
      block left as FLAC__metadata_object_new made it. */
  lemma AbsentFieldsKeepDefaults(lib: Library)
    ensures ToFlacSpec(Table(map["stream_info" := Table(map[], [])], []), lib) ==
            Ok(Record(STREAMINFO, false, 34, DefaultBody(STREAMINFO, lib.vendor)))
  {
    var block := Table(map["stream_info" := Table(map[], [])], []);
    assert KindOf(block) == STREAMINFO;
    assert StreamInfoOf(block, DefaultBody(STREAMINFO, lib.vendor).info) == Ok(DefaultBody(STREAMINFO, lib.vendor).info);
  }

  /** An absent index offset and number both become 0. */
  lemma AbsentIndexFieldsAreZero(e: Value)
    requires e.Table? && "offset" !in e.fields && "number" !in e.fields
    ensures CueIndexOf(e) == Ok(CueIndex(0, 0))
  {
  }

  /** An md5sum, when present as a string, is stored only if it has exactly 16 bytes. */
  lemma Md5Rule(block: Value, lib: Library, s: string)
    requires block.Table? && KindOf(block) == STREAMINFO
    requires Field(block, "stream_info").Table?
    requires Field(Field(block, "stream_info"), "md5sum") == Str(s)
    requires OptU64(Field(block, "stream_info"), "total_samples", 0).Ok?
    ensures |s| != 16 ==> ToFlacSpec(block, lib) == Err(Raised("incorrect md5sum length"))
    ensures |s| == 16 ==> ToFlacSpec(block, lib).Ok? && ToFlacSpec(block, lib).value.data.info.md5sum == s
  {
  }

  /** An application id shorter than 4 bytes is refused; otherwise its first 4 bytes are
      the id. */
  lemma ApplicationIdRule(block: Value, lib: Library, id: string, data: string)
    requires block.Table? && KindOf(block) == APPLICATION && Field(block, "application").Table?
    requires Field(Field(block, "application"), "id") == Str(id)
    requires Field(Field(block, "application"), "data") == Str(data)
    ensures |id| < 4 ==> ToFlacSpec(block, lib) == Err(Raised("incorrect id length"))
    ensures 4 <= |id| ==> (ToFlacSpec(block, lib).Ok? &&
      ToFlacSpec(block, lib).value.data == ApplicationBody(id[..4], Truncated(data)))
  {
  }

  /** Seek point k comes from element k + 1 of the points list, and there are as many
      points as the list's length (mod 2^32). */
  lemma SeekTableOrder(block: Value)
    requires block.Table? && SeekTableOf(block).Ok?
    ensures var p := Field(Field(block, "seek_table"), "points");
      var points := SeekTableOf(block).value;
      p.Table? && |points| == Wrap32(|p.items|) &&
      forall k :: 0 <= k < |points| ==> RawGetI(p, k + 1) == Ok(p.items[k]) && PointOf(p.items[k]) == Ok(points[k])
  {
    var p := Field(Field(block, "seek_table"), "points");
    var items := p.items[..Wrap32(|p.items|)];
    var points := SeekTableOf(block).value;
    MapFromOrder(PointOf, items, 0);
    forall k | 0 <= k < |points|
      ensures RawGetI(p, k + 1) == Ok(p.items[k]) && PointOf(p.items[k]) == Ok(points[k])
    {
      assert items[k] == p.items[k];
    }
  }

  /** Comment k comes from element k + 1 of the comments list, in order. */
  lemma CommentsOrder(lib: Library, cf: Value)
    requires CommentsOf(lib, cf).Ok?
    ensures var cs := CommentsOf(lib, cf).value;
      |cs| == Wrap32(RawLen(cf)) &&
      forall k :: 0 <= k < |cs| ==> RawGetI(cf, k + 1).Ok? && CommentOf(lib, RawGetI(cf, k + 1).value) == Ok(cs[k])
  {
    var items := Elements(cf, Wrap32(RawLen(cf))).value;
    MapFromOrder(CommentReader(lib), items, 0);
  }

  /** A string copied into a fixed array of n bytes: refused past n - 1 bytes, else the
      bytes, a NUL, and the rest of the array unchanged. */
  lemma FixedStringRule(s: string, d: seq<char>, n: nat, tooLong: string)
    requires |d| == n
    ensures n - 1 < |s| ==> FixedStringOf(Str(s), d, n, tooLong) == Err(Raised(tooLong))
    ensures |s| <= n - 1 ==> var r := FixedStringOf(Str(s), d, n, tooLong);
      r.Ok? && r.value[..|s|] == s && r.value[|s|] == '\0' && r.value[|s| + 1..] == d[|s| + 1..]
  {
    if |s| <= n - 1 {
      var v := s + ['\0'] + d[|s| + 1..];
      assert v[..|s|] == s;
      assert v[|s| + 1..] == d[|s| + 1..];
    }
  }

  /** A media catalog number longer than 128 bytes is refused. */
  lemma CatalogTooLongRefused(block: Value, lib: Library, s: string)
    requires block.Table? && KindOf(block) == CUESHEET && Field(block, "cue_sheet").Table?
    requires Field(Field(block, "cue_sheet"), "media_catalog_number") == Str(s) && |s| > 128
    ensures ToFlacSpec(block, lib) == Err(Raised("media_catalog_number: length > 128"))
  {
  }

  /** An ISRC longer than 12 bytes makes its track, and with it the cue sheet, fail. */
  lemma IsrcTooLongRefused(e: Value, s: string)
    requires e.Table? && (Field(e, "offset").Nil? || UInt64Of(Field(e, "offset")).Ok?)
    requires Field(e, "isrc") == Str(s) && |s| > 12
    ensures CueTrackOf(e) == Err(Raised("incorrect isrc length"))
  {
  }

  /** num_indices is a byte: a list of 256 indices is read as none at all. */
  lemma IndexCountWraps()
    ensures IndicesOf(Table(map[], seq(256, _ => Table(map[], [])))) == Ok([])
  {
  }

  lemma CommentsBounded(lib: Library, cf: Value)
    requires CommentsOf(lib, cf).Ok?
    ensures var cs := CommentsOf(lib, cf).value;
      |cs| < TWO_32 && forall i :: 0 <= i < |cs| ==> |cs[i]| < TWO_32
  {
    var items := Elements(cf, Wrap32(RawLen(cf))).value;
    var cs := CommentsOf(lib, cf).value;
    MapFromOrder(CommentReader(lib), items, 0);
    forall i | 0 <= i < |cs|
      ensures |cs[i]| < TWO_32
    {
      assert CommentOf(lib, items[i]) == Ok(cs[i]);
    }
  }

  lemma TrackValid(e: Value)
    requires CueTrackOf(e).Ok?
    ensures ValidTrack(CueTrackOf(e).value)
  {
    var head := CueTrackHeadOf(e).value;
    TrackAssembly(e, head);
  }

  lemma TracksValid(tf: Value)
    requires TracksOf(tf).Ok?
    ensures var ts := TracksOf(tf).value;
      |ts| < TWO_32 && forall i :: 0 <= i < |ts| ==> |ts[i].isrc| == ISRC_SIZE && |ts[i].indices| < TWO_8
  {
    var items := Elements(tf, Wrap32(RawLen(tf))).value;
    var ts := TracksOf(tf).value;
    MapFromOrder(CueTrackOf, items, 0);
    forall i | 0 <= i < |ts|
      ensures |ts[i].isrc| == ISRC_SIZE && |ts[i].indices| < TWO_8
    {
      TrackValid(items[i]);
    }
  }

  /** Every block the conversion builds is one libFLAC can hold: of a known type, with its
      fixed-size arrays of their size and its counts within their fields. */
  lemma ConvertedIsValid(block: Value, lib: Library)
    requires |lib.vendor| < TWO_32
    requires ToFlacSpec(block, lib).Ok?
    ensures ValidRecord(ToFlacSpec(block, lib).value) && ToFlacSpec(block, lib).value.kind <= PICTURE
  {
    var kind := KindOf(block);
    var base := Record(kind, OptBool(block, "is_last", false), InitialLength(kind, lib.vendor), DefaultBody(kind, lib.vendor));
    assert ToFlacSpec(block, lib) == BodyOf(block, lib, base);
    if kind == VORBIS_COMMENT {
      VorbisCommentValid(block, lib, base);
    } else if kind == CUESHEET {
      CueSheetValid(block, lib, base);
    } else {
      FixedBodyValid(block, lib, base);
    }
  }

  lemma VorbisCommentValid(block: Value, lib: Library, base: Record)
    requires block.Table? && |lib.vendor| < TWO_32
    requires base.kind == VORBIS_COMMENT && base.data == VorbisCommentBody(lib.vendor, [])
    requires BodyOf(block, lib, base).Ok?
    ensures ValidRecord(BodyOf(block, lib, base).value)
  {
    var cf := Field(Field(block, "vorbis_comment"), "comments");
    if !cf.Nil? {
      CommentsBounded(lib, cf);
    }
  }

  lemma CueSheetValid(block: Value, lib: Library, base: Record)
    requires block.Table? && base.kind == CUESHEET
    requires base.data == CueSheetBody(CueSheet(Zeros(CATALOG_SIZE), 0, false, []))
    requires BodyOf(block, lib, base).Ok?
    ensures ValidRecord(BodyOf(block, lib, base).value)
  {
    var tf := Field(Field(block, "cue_sheet"), "tracks");
    if !tf.Nil? {
      TracksValid(tf);
    }
  }

  /** The types whose bodies hold no list of strings or tracks. */
  lemma FixedBodyValid(block: Value, lib: Library, base: Record)
    requires block.Table? && base.kind <= MAX_METADATA_TYPE
    requires base.kind != VORBIS_COMMENT && base.kind != CUESHEET
    requires base.data == DefaultBody(base.kind, lib.vendor)
    requires BodyOf(block, lib, base).Ok?
    ensures ValidRecord(BodyOf(block, lib, base).value) && base.kind <= PICTURE
  {
    if base.kind == STREAMINFO {
      StreamInfoValid(block, lib, base);
    } else if base.kind == APPLICATION {
      ApplicationValid(block, lib, base);
    } else if base.kind == PICTURE {
      PictureValid(block, lib, base);
    }
  }

  lemma StreamInfoValid(block: Value, lib: Library, base: Record)
    requires block.Table? && base.kind == STREAMINFO && base.data == DefaultBody(STREAMINFO, lib.vendor)
    requires BodyOf(block, lib, base).Ok?
    ensures ValidRecord(BodyOf(block, lib, base).value)
  {
  }

  lemma ApplicationValid(block: Value, lib: Library, base: Record)
    requires block.Table? && base.kind == APPLICATION && base.data == DefaultBody(APPLICATION, lib.vendor)
    requires BodyOf(block, lib, base).Ok?
    ensures ValidRecord(BodyOf(block, lib, base).value)
  {
  }

  lemma PictureValid(block: Value, lib: Library, base: Record)
    requires block.Table? && base.kind == PICTURE && base.data == DefaultBody(PICTURE, lib.vendor)
    requires BodyOf(block, lib, base).Ok?
    ensures ValidRecord(BodyOf(block, lib, base).value)
  {
  }
}
