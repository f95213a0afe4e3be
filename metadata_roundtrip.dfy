/** Pushing a block to Lua and converting the table back: what comes back is the block,
    except where the emitters drop information (the picture description, the lengths
    libFLAC recomputes, the bytes after the first NUL of a fixed-size C string). */
module MetadataRoundTrip {
  import opened MachineInt
  import opened CLib
  import opened Lua
  import opened Int64Convert
  import opened FlacMetadata
  import opened MetadataRead
  import opened MetadataPush

  /** A fixed-size C string array as the converters leave it: a string, its terminator,
      and zeros up to the end. */
  predicate ZeroPadded(a: seq<char>) {
    |CString(a)| < |a| && forall k :: |CString(a)| <= k < |a| ==> a[k] == '\0'
  }

  lemma ZeroPaddedRebuilt(a: seq<char>)
    requires ZeroPadded(a)
    ensures CString(a) + ['\0'] + Zeros(|a|)[|CString(a)| + 1..] == a
  {
    var c := CString(a);
    var b := c + ['\0'] + Zeros(|a|)[|c| + 1..];
    assert |b| == |a|;
    forall k | 0 <= k < |a|
      ensures b[k] == a[k]
    {
      if k < |c| {
        assert b[k] == c[k];
      } else if k > |c| {
        assert b[k] == Zeros(|a|)[k] == '\0';
      }
    }
  }

  lemma CStringOfNoNul(s: string)
    requires NoNul(s)
    ensures CString(s) == s
  {
  }

  lemma SignedInjective(a: u64, b: u64)
    requires ToSigned(a) == ToSigned(b)
    ensures a == b
  {
    UnsignedSignedInverse(a);
    UnsignedSignedInverse(b);
  }

  lemma PointBack(p: SeekPoint)
    ensures PointOf(PointTable(p)) == Ok(p)
  {
  }

  lemma IndexBack(x: CueIndex)
    ensures CueIndexOf(IndexTable(x)) == Ok(x)
  {
  }

  /** The index list of a track reads back as its indices. */
  lemma IndicesBack(indices: seq<CueIndex>)
    requires |indices| < TWO_8
    ensures IndicesOf(ListOf(indices, IndexTable)) == Ok(indices)
  {
    var xf := ListOf(indices, IndexTable);
    assert xf.items[..|xf.items|] == xf.items;
    assert Elements(xf, Wrap8(RawLen(xf))) == Ok(xf.items);
    forall k | 0 <= k < |indices|
      ensures CueIndexOf(xf.items[k]) == Ok(indices[k])
    {
      IndexBack(indices[k]);
    }
    MapFromAll(CueIndexOf, xf.items, indices, 0);
  }

  lemma TrackBack(t: CueTrack)
    requires ValidTrack(t) && ZeroPadded(t.isrc)
    ensures CueTrackOf(TrackTable(t)) == Ok(t)
  {
    var e := TrackTable(t);
    ZeroPaddedRebuilt(t.isrc);
    assert FixedStringOf(Str(CString(t.isrc)), EMPTY_TRACK.isrc, ISRC_SIZE, "incorrect isrc length") == Ok(t.isrc);
    assert CueTrackHeadOf(e) == Ok(t.(indices := []));
    IndicesBack(t.indices);
    TrackAssembly(e, t.(indices := []));
  }

  lemma StreamInfoBack(block: Value, s: StreamInfo, d: StreamInfo)
    requires block.Table? && Field(block, "stream_info") == StreamInfoTable(s)
    requires |s.md5sum| == 16
    ensures StreamInfoOf(block, d) == Ok(s)
  {
  }

  lemma PaddingBack(block: Value, dummy: i32, length: u32, d: i32)
    requires block.Table? && Field(block, "padding") == PaddingTable(dummy)
    requires Field(block, "length") == Integer(length)
    ensures PaddingOf(block, d) == Ok((dummy, length))
  {
  }

  lemma ApplicationBack(block: Value, id: seq<char>, data: seq<char>)
    requires block.Table? && Field(block, "application") == ApplicationTable(id, data)
    requires |id| == 4 && |data| < TWO_32
    ensures ApplicationOf(block) == Ok((id, data))
  {
    assert id[..4] == id;
  }

  lemma SeekTableBack(block: Value, points: seq<SeekPoint>)
    requires |points| < TWO_32
    requires block.Table? && Field(block, "seek_table") == SeekTableTable(points)
    ensures SeekTableOf(block) == Ok(points)
  {
    var p := ListOf(points, PointTable);
    assert p.items[..Wrap32(|p.items|)] == p.items;
    forall k | 0 <= k < |points|
      ensures PointOf(p.items[k]) == Ok(points[k])
    {
      PointBack(points[k]);
    }
    MapFromAll(PointOf, p.items, points, 0);
  }

  /** The library accepts the vendor string and every comment as they stand. */
  predicate Accepts(lib: Library, vendor: string, comments: seq<string>) {
    lib.valueIsLegal(vendor) && forall i :: 0 <= i < |comments| ==> lib.entryIsLegal(comments[i])
  }

  lemma VorbisCommentBack(block: Value, lib: Library, vendor: string, comments: seq<string>, v0: string, c0: seq<string>)
    requires |vendor| < TWO_32 && |comments| < TWO_32 && forall i :: 0 <= i < |comments| ==> |comments[i]| < TWO_32
    requires Accepts(lib, vendor, comments)
    requires block.Table? && Field(block, "vorbis_comment") == VorbisCommentTable(vendor, comments)
    ensures VorbisCommentOf(block, lib, v0, c0) == Ok((vendor, comments))
  {
    var cf := ListOf(comments, CommentValue);
    assert cf.items[..|cf.items|] == cf.items;
    assert Elements(cf, Wrap32(RawLen(cf))) == Ok(cf.items);
    forall k | 0 <= k < |comments|
      ensures CommentReader(lib)(cf.items[k]) == Ok(comments[k])
    {
    }
    MapFromAll(CommentReader(lib), cf.items, comments, 0);
    assert CommentsOf(lib, cf) == Ok(comments);
  }

  /** The cue sheet's fixed-size strings are zero-padded C strings. */
  predicate CanonicalSheet(s: CueSheet) {
    ZeroPadded(s.catalog) && forall i :: 0 <= i < |s.tracks| ==> ZeroPadded(s.tracks[i].isrc)
  }

  lemma TracksBack(tracks: seq<CueTrack>)
    requires |tracks| < TWO_32
    requires forall i :: 0 <= i < |tracks| ==> |tracks[i].isrc| == ISRC_SIZE && |tracks[i].indices| < TWO_8
    requires forall i :: 0 <= i < |tracks| ==> ZeroPadded(tracks[i].isrc)
    ensures TracksOf(ListOf(tracks, TrackValue)) == Ok(tracks)
  {
    var tf := ListOf(tracks, TrackValue);
    assert tf.items[..|tf.items|] == tf.items;
    assert Elements(tf, Wrap32(RawLen(tf))) == Ok(tf.items);
    forall k | 0 <= k < |tracks|
      ensures CueTrackOf(tf.items[k]) == Ok(tracks[k])
    {
      TrackBack(tracks[k]);
    }
    MapFromAll(CueTrackOf, tf.items, tracks, 0);
  }

  lemma CueSheetBack(block: Value, s: CueSheet, d: CueSheet)
    requires ValidSheet(s) && CanonicalSheet(s) && d.catalog == Zeros(CATALOG_SIZE)
    requires block.Table? && Field(block, "cue_sheet") == CueSheetTable(s)
    ensures CueSheetOf(block, d) == Ok(s)
  {
    var t := CueSheetTable(s);
    ZeroPaddedRebuilt(s.catalog);
    assert FixedStringOf(Field(t, "media_catalog_number"), d.catalog, CATALOG_SIZE, "media_catalog_number: length > 128") == Ok(s.catalog);
    var lead := UInt64Of(Integer(ToSigned(s.leadIn)));
    SignedInjective(lead.value, s.leadIn);
    assert OptU64(t, "lead_in", d.leadIn) == Ok(s.leadIn);
    TracksBack(s.tracks);
  }

  lemma PictureBack(block: Value, p: Picture, d: Picture)
    requires NoNul(p.mimeType) && |p.data| < TWO_32
    requires block.Table? && Field(block, "picture") == PictureTable(p)
    ensures PictureOf(block, d) == Ok(p.(description := d.description))
  {
    CStringOfNoNul(p.mimeType);
  }

  /** What the conversion gives back for a pushed block: the picture description, which
      is not pushed, comes back empty; only PADDING and APPLICATION take their length
      from the table, every other type keeps the length of a fresh block. */
  function ReadBack(r: Record, lib: Library): Record {
    Record(r.kind, r.isLast,
           if r.kind == PADDING || r.kind == APPLICATION then r.length else InitialLength(r.kind, lib.vendor),
           if r.data.PictureBody? then PictureBody(r.data.picture.(description := "")) else r.data)
  }

  /** The conditions under which a pushed block converts back: its strings are ones the
      library accepts and its fixed-size arrays are zero-padded. */
  predicate Canonical(r: Record, lib: Library) {
    match r.data
    case VorbisCommentBody(vendor, comments) => Accepts(lib, vendor, comments)
    case CueSheetBody(sheet) => CanonicalSheet(sheet)
    case _ => true
  }

  /** luaflac_toflac_streammetadata undoes luaflac_pushstreammetadata for every block of
      the seven known types. */
  lemma PushThenToFlac(r: Record, lib: Library)
    requires ValidRecord(r) && r.kind <= PICTURE && Canonical(r, lib)
    ensures ToFlacSpec(PushSpec(r), lib) == Ok(ReadBack(r, lib))
  {
    assert KindOf(PushSpec(r)) == r.kind;
    assert OptBool(PushSpec(r), "is_last", false) == r.isLast;
    match r.data
    case StreamInfoBody(_) => StreamInfoThenBack(r, lib);
    case PaddingBody(_) => PaddingThenBack(r, lib);
    case ApplicationBody(_, _) => ApplicationThenBack(r, lib);
    case SeekTableBody(_) => SeekTableThenBack(r, lib);
    case VorbisCommentBody(_, _) => VorbisCommentThenBack(r, lib);
    case CueSheetBody(_) => CueSheetThenBack(r, lib);
    case PictureBody(_) => PictureThenBack(r, lib);
  }

  lemma StreamInfoThenBack(r: Record, lib: Library)
    requires ValidRecord(r) && r.data.StreamInfoBody?
    requires KindOf(PushSpec(r)) == r.kind && OptBool(PushSpec(r), "is_last", false) == r.isLast
    ensures ToFlacSpec(PushSpec(r), lib) == Ok(ReadBack(r, lib))
  {
    StreamInfoBack(PushSpec(r), r.data.info, DefaultBody(r.kind, lib.vendor).info);
  }

  lemma PaddingThenBack(r: Record, lib: Library)
    requires ValidRecord(r) && r.data.PaddingBody?
    requires KindOf(PushSpec(r)) == r.kind && OptBool(PushSpec(r), "is_last", false) == r.isLast
    ensures ToFlacSpec(PushSpec(r), lib) == Ok(ReadBack(r, lib))
  {
    PaddingBack(PushSpec(r), r.data.dummy, r.length, 0);
  }

  lemma ApplicationThenBack(r: Record, lib: Library)
    requires ValidRecord(r) && r.data.ApplicationBody?
    requires KindOf(PushSpec(r)) == r.kind && OptBool(PushSpec(r), "is_last", false) == r.isLast
    ensures ToFlacSpec(PushSpec(r), lib) == Ok(ReadBack(r, lib))
  {
    ApplicationBack(PushSpec(r), r.data.id, r.data.appData);
  }

  lemma SeekTableThenBack(r: Record, lib: Library)
    requires ValidRecord(r) && r.data.SeekTableBody?
    requires KindOf(PushSpec(r)) == r.kind && OptBool(PushSpec(r), "is_last", false) == r.isLast
    ensures ToFlacSpec(PushSpec(r), lib) == Ok(ReadBack(r, lib))
  {
    SeekTableBack(PushSpec(r), r.data.points);
  }

  lemma VorbisCommentThenBack(r: Record, lib: Library)
    requires ValidRecord(r) && r.data.VorbisCommentBody? && Canonical(r, lib)
    requires KindOf(PushSpec(r)) == r.kind && OptBool(PushSpec(r), "is_last", false) == r.isLast
    ensures ToFlacSpec(PushSpec(r), lib) == Ok(ReadBack(r, lib))
  {
    VorbisCommentBack(PushSpec(r), lib, r.data.vendor, r.data.comments, lib.vendor, []);
  }

  lemma CueSheetThenBack(r: Record, lib: Library)
    requires ValidRecord(r) && r.data.CueSheetBody? && Canonical(r, lib)
    requires KindOf(PushSpec(r)) == r.kind && OptBool(PushSpec(r), "is_last", false) == r.isLast
    ensures ToFlacSpec(PushSpec(r), lib) == Ok(ReadBack(r, lib))
  {
    CueSheetBack(PushSpec(r), r.data.sheet, DefaultBody(r.kind, lib.vendor).sheet);
  }

  lemma PictureThenBack(r: Record, lib: Library)
    requires ValidRecord(r) && r.data.PictureBody?
    requires KindOf(PushSpec(r)) == r.kind && OptBool(PushSpec(r), "is_last", false) == r.isLast
    ensures ToFlacSpec(PushSpec(r), lib) == Ok(ReadBack(r, lib))
  {
    PictureBack(PushSpec(r), r.data.picture, DefaultBody(r.kind, lib.vendor).picture);
  }

  /** A block of a type the binding does not know is pushed as raw data but cannot be
      converted back. */
  lemma UnknownKindNotConverted(r: Record, lib: Library)
    requires ValidRecord(r) && PICTURE < r.kind
    ensures ToFlacSpec(PushSpec(r), lib) == Err(Raised("unknown metadata type"))
  {
    assert KindOf(PushSpec(r)) == r.kind;
  }
}
