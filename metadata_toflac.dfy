/** luaflac_toflac_streammetadata and its per-type converters as the C code runs them:
    each fills the fields of a freshly allocated block in place, field by field and
    element by element, and is proved to end with the block MetadataRead describes (or
    with the failure it describes). */
module MetadataToFlac {
  import opened MachineInt
  import opened CLib
  import opened Lua
  import opened Int64Convert
  import opened FlacMetadata
  import opened MetadataRead

  /** A converter's outcome matches the specification's: both succeed, or both fail with
      the same failure. */
  predicate Agrees<T>(r: Result<()>, s: Result<T>) {
    (r.Ok? <==> s.Ok?) && (r.Err? ==> r.failure == s.failure)
  }

  /** An optional integer field stored in a 32-bit unsigned field: lua_tointeger when
      the field is not nil, the old value otherwise. */
  method ReadU32(t: Value, key: string, d: u32) returns (v: u32)
    requires t.Table?
    ensures v == OptU32(t, key, d)
  {
    v := d;
    var f := Field(t, key);
    if !f.Nil? {
      v := Wrap32(ToInteger(f));
    }
  }

  method ToFlacStreamInfo(block: Value, m: StreamMetadata) returns (r: Result<()>)
    requires block.Table? && m.data.StreamInfoBody?
    modifies m`data
    ensures Agrees(r, StreamInfoOf(block, old(m.data.info)))
    ensures r.Ok? ==> m.data == StreamInfoBody(StreamInfoOf(block, old(m.data.info)).value)
  {
    var t := Field(block, "stream_info");
    if !t.Table? {
      return Err(Raised("missing key: stream_info"));
    }
    var minBlocksize := ReadU32(t, "min_blocksize", m.data.info.minBlocksize);
    m.data := StreamInfoBody(m.data.info.(minBlocksize := minBlocksize));
    var maxBlocksize := ReadU32(t, "max_blocksize", m.data.info.maxBlocksize);
    m.data := StreamInfoBody(m.data.info.(maxBlocksize := maxBlocksize));
    var minFramesize := ReadU32(t, "min_framesize", m.data.info.minFramesize);
    m.data := StreamInfoBody(m.data.info.(minFramesize := minFramesize));
    var maxFramesize := ReadU32(t, "max_framesize", m.data.info.maxFramesize);
    m.data := StreamInfoBody(m.data.info.(maxFramesize := maxFramesize));
    var sampleRate := ReadU32(t, "sample_rate", m.data.info.sampleRate);
    m.data := StreamInfoBody(m.data.info.(sampleRate := sampleRate));
    var channels := ReadU32(t, "channels", m.data.info.channels);
    m.data := StreamInfoBody(m.data.info.(channels := channels));
    var bitsPerSample := ReadU32(t, "bits_per_sample", m.data.info.bitsPerSample);
    m.data := StreamInfoBody(m.data.info.(bitsPerSample := bitsPerSample));
    var f := Field(t, "total_samples");
    if !f.Nil? {
      var total :- ToUInt64(f);
      m.data := StreamInfoBody(m.data.info.(totalSamples := total));
    }
    f := Field(t, "md5sum");
    if !f.Nil? {
      var md5 :- CheckLString(f);
      if |md5| != 16 {
        return Err(Raised("incorrect md5sum length"));
      }
      m.data := StreamInfoBody(m.data.info.(md5sum := md5));
    }
    return Ok(());
  }

  method ToFlacPadding(block: Value, m: StreamMetadata) returns (r: Result<()>)
    requires block.Table? && m.data.PaddingBody?
    modifies m`data, m`length
    ensures Agrees(r, PaddingOf(block, old(m.data.dummy)))
    ensures r.Ok? ==> m.data == PaddingBody(PaddingOf(block, old(m.data.dummy)).value.0)
    ensures r.Ok? ==> m.length == PaddingOf(block, old(m.data.dummy)).value.1
  {
    var t := Field(block, "padding");
    if !t.Table? {
      return Err(Raised("missing key: padding"));
    }
    var f := Field(t, "dummy");
    if !f.Nil? {
      m.data := PaddingBody(WrapS32(ToInteger(f)));
    }
    m.length := Wrap32(ToInteger(Field(block, "length")));
    return Ok(());
  }

  method ToFlacApplication(block: Value, m: StreamMetadata) returns (r: Result<()>)
    requires block.Table? && m.data.ApplicationBody?
    modifies m`data, m`length
    ensures Agrees(r, ApplicationOf(block))
    ensures r.Ok? ==> var a := ApplicationOf(block).value;
      m.data == ApplicationBody(a.0, a.1) && m.length == Wrap32(4 + |a.1|)
  {
    var t := Field(block, "application");
    if !t.Table? {
      return Err(Raised("missing key: application"));
    }
    var id :- CheckLString(Field(t, "id"));
    if |id| < 4 {
      return Err(Raised("incorrect id length"));
    }
    m.data := m.data.(id := id[..4]);
    var data :- CheckLString(Field(t, "data"));
    // FLAC__metadata_object_application_set_data
    m.data := m.data.(appData := Truncated(data));
    m.length := Wrap32(4 + |Truncated(data)|);
    return Ok(());
  }

  /** One seek point, read field by field from its table. */
  method ReadPoint(e: Value) returns (r: Result<SeekPoint>)
    ensures r == PointOf(e)
  {
    var sf :- GetField(e, "sample_number");
    var sample :- ToUInt64(sf);
    var offset :- ToUInt64(GetField(e, "stream_offset").value);
    var frames :- CheckInteger(GetField(e, "frame_samples").value);
    return Ok(SeekPoint(sample, offset, Wrap32(frames)));
  }

  method ToFlacSeekTable(block: Value, m: StreamMetadata) returns (r: Result<()>)
    requires block.Table? && m.data.SeekTableBody?
    modifies m`data
    ensures Agrees(r, SeekTableOf(block))
    ensures r.Ok? ==> m.data == SeekTableBody(SeekTableOf(block).value)
  {
    var t := Field(block, "seek_table");
    if !t.Table? {
      return Err(Raised("missing key: seek_table"));
    }
    var p := Field(t, "points");
    if !p.Table? {
      return Err(Raised("missing key: points"));
    }
    var n := Wrap32(RawLen(p));
    ghost var items := p.items[..n];
    m.data := SeekTableBody(Resized(m.data.points, n, PLACEHOLDER));
    var i := 0;
    FillStart(PointOf, items, m.data.points);
    while i < n
      invariant i <= n
      invariant m.data.SeekTableBody? && |m.data.points| == n
      invariant Filled(PointOf, items, m.data.points, i)
    {
      var e := RawGetI(p, i + 1).value;
      assert e == items[i];
      var read := ReadPoint(e);
      if read.Err? {
        FillStops(PointOf, items, m.data.points, i);
        return Err(read.failure);
      }
      var point := read.value;
      FillStep(PointOf, items, m.data.points, i, point);
      // FLAC__metadata_object_seektable_set_point
      m.data := SeekTableBody(m.data.points[i := point]);
      i := i + 1;
    }
    FillDone(PointOf, items, m.data.points);
    return Ok(());
  }

  method ToFlacVorbisComment(block: Value, lib: Library, m: StreamMetadata) returns (r: Result<()>)
    requires block.Table? && m.data.VorbisCommentBody?
    modifies m`data
    ensures Agrees(r, VorbisCommentOf(block, lib, old(m.data.vendor), old(m.data.comments)))
    ensures r.Ok? ==> var v := VorbisCommentOf(block, lib, old(m.data.vendor), old(m.data.comments)).value;
      m.data == VorbisCommentBody(v.0, v.1)
  {
    var t := Field(block, "vorbis_comment");
    if !t.Table? {
      return Err(Raised("missing key: vorbis_comment"));
    }
    var vf := Field(t, "vendor_string");
    if !vf.Nil? {
      var entry := ToLString(vf);
      if entry.Ok? {
        // FLAC__metadata_object_vorbiscomment_set_vendor_string
        if !lib.valueIsLegal(Truncated(entry.value)) {
          return Err(Raised("error setting vendor string"));
        }
        m.data := m.data.(vendor := Truncated(entry.value));
      }
    }
    var cf := Field(t, "comments");
    if !cf.Nil? {
      r := ReadComments(lib, cf, m);
      return;
    }
    return Ok(());
  }

  /** One comment entry, as set_comment receives it. */
  method ReadComment(lib: Library, e: Value) returns (r: Result<string>)
    ensures r == CommentOf(lib, e)
  {
    var entry := ToLString(e);
    if entry.Err? {
      return Err(Raised("entry not a string"));
    }
    // FLAC__metadata_object_vorbiscomment_set_comment
    if !lib.entryIsLegal(Truncated(entry.value)) {
      return Err(Raised("error calling set_comment"));
    }
    return Ok(Truncated(entry.value));
  }

  /** The comment list resized to rawlen and filled entry by entry. */
  method ReadComments(lib: Library, cf: Value, m: StreamMetadata) returns (r: Result<()>)
    requires m.data.VorbisCommentBody?
    modifies m`data
    ensures Agrees(r, CommentsOf(lib, cf))
    ensures r.Ok? ==> m.data == VorbisCommentBody(old(m.data.vendor), CommentsOf(lib, cf).value)
  {
    var n := Wrap32(RawLen(cf));
    ghost var items := Elements(cf, n);
    ghost var read := CommentReader(lib);
    ghost var vendor := m.data.vendor;
    ghost var comments := Resized(m.data.comments, n, "");
    // FLAC__metadata_object_vorbiscomment_resize_comments
    m.data := m.data.(comments := Resized(m.data.comments, n, ""));
    var i := 0;
    if items.Ok? {
      FillStart(read, items.value, comments);
    }
    while i < n
      invariant i <= n && |comments| == n
      invariant m.data == VorbisCommentBody(vendor, comments)
      invariant items.Err? ==> i == 0
      invariant items.Ok? ==> Filled(read, items.value, comments, i)
    {
      var e :- RawGetI(cf, i + 1);
      assert e == items.value[i] && read(e) == CommentOf(lib, e);
      var entry := ReadComment(lib, e);
      if entry.Err? {
        FillStops(read, items.value, comments, i);
        return Err(entry.failure);
      }
      FillStep(read, items.value, comments, i, entry.value);
      m.data := m.data.(comments := m.data.comments[i := entry.value]);
      comments := comments[i := entry.value];
      i := i + 1;
    }
    assert items.Ok? && |items.value| == n;
    FillDone(read, items.value, comments);
    return Ok(());
  }

  /** FLAC__metadata_object_cuesheet_track_new and the fields read into the new track
      before it is set into the cue sheet. */
  method NewTrack(e: Value) returns (r: Result<CueTrack>)
    ensures r == CueTrackHeadOf(e)
  {
    var track := EMPTY_TRACK;
    var of :- GetField(e, "offset");
    if !of.Nil? {
      var offset :- ToUInt64(of);
      track := track.(offset := offset);
    }
    var nf := GetField(e, "number").value;
    if !nf.Nil? {
      track := track.(number := Wrap8(ToInteger(nf)));
    }
    var sf := GetField(e, "isrc").value;
    if !sf.Nil? {
      var s := ToLString(sf);
      if s.Err? {
        return Err(Undefined("memcpy from a NULL string"));
      }
      if |s.value| > 12 {
        return Err(Raised("incorrect isrc length"));
      }
      track := track.(isrc := s.value + ['\0'] + track.isrc[|s.value| + 1..]);
    }
    var tf := GetField(e, "type").value;
    if !tf.Nil? {
      track := track.(trackType := ToInteger(tf) % 2);
    }
    var pf := GetField(e, "pre_emphasis").value;
    if !pf.Nil? {
      track := track.(preEmphasis := ToInteger(pf) % 2);
    }
    return Ok(track);
  }

  /** One cue point index: absent offset and number are set to 0. */
  method ReadIndex(e: Value) returns (r: Result<CueIndex>)
    ensures r == CueIndexOf(e)
  {
    var of :- GetField(e, "offset");
    var offset: u64 := 0;
    if !of.Nil? {
      offset :- ToUInt64(of);
    }
    var nf := GetField(e, "number").value;
    var number: u8 := 0;
    if !nf.Nil? {
      number := Wrap8(ToInteger(nf));
    }
    return Ok(CueIndex(offset, number));
  }

  /** The indices of track i, resized and filled in place. */
  method ReadIndices(xf: Value, m: StreamMetadata, i: nat) returns (r: Result<()>)
    requires m.data.CueSheetBody? && i < |m.data.sheet.tracks| && !xf.Nil?
    modifies m`data
    ensures Agrees(r, IndicesOf(xf))
    ensures r.Ok? ==> m.data == CueSheetBody(WithTrack(old(m.data.sheet), i,
      old(m.data.sheet.tracks[i]).(indices := IndicesOf(xf).value)))
  {
    var k := Wrap8(RawLen(xf));
    ghost var items := Elements(xf, k);
    ghost var sheet := m.data.sheet;
    ghost var track := sheet.tracks[i];
    ghost var indices := Resized(track.indices, k, CueIndex(0, 0));
    // FLAC__metadata_object_cuesheet_track_resize_indices
    var cur := m.data.sheet.tracks[i];
    WithTrackTwice(sheet, i, track, track.(indices := indices));
    m.data := CueSheetBody(WithTrack(m.data.sheet, i, cur.(indices := Resized(cur.indices, k, CueIndex(0, 0)))));
    var j := 0;
    if items.Ok? {
      FillStart(CueIndexOf, items.value, indices);
    }
    while j < k
      invariant j <= k && |indices| == k
      invariant m.data == CueSheetBody(WithTrack(sheet, i, track.(indices := indices)))
      invariant items.Err? ==> j == 0
      invariant items.Ok? ==> Filled(CueIndexOf, items.value, indices, j)
    {
      var e :- RawGetI(xf, j + 1);
      assert e == items.value[j];
      var index := ReadIndex(e);
      if index.Err? {
        FillStops(CueIndexOf, items.value, indices, j);
        return Err(index.failure);
      }
      FillStep(CueIndexOf, items.value, indices, j, index.value);
      cur := m.data.sheet.tracks[i];
      assert cur == track.(indices := indices);
      WithTrackTwice(sheet, i, cur, cur.(indices := cur.indices[j := index.value]));
      m.data := CueSheetBody(WithTrack(m.data.sheet, i, cur.(indices := cur.indices[j := index.value])));
      indices := indices[j := index.value];
      j := j + 1;
    }
    assert items.Ok? && |items.value| == k;
    FillDone(CueIndexOf, items.value, indices);
    return Ok(());
  }

  method ToFlacCueSheet(block: Value, m: StreamMetadata) returns (r: Result<()>)
    requires block.Table? && m.data.CueSheetBody? && |m.data.sheet.catalog| == CATALOG_SIZE
    modifies m`data
    ensures Agrees(r, CueSheetOf(block, old(m.data.sheet)))
    ensures r.Ok? ==> m.data == CueSheetBody(CueSheetOf(block, old(m.data.sheet)).value)
  {
    var t := Field(block, "cue_sheet");
    if !t.Table? {
      return Err(Raised("missing key: cue_sheet"));
    }
    var f := Field(t, "media_catalog_number");
    if !f.Nil? {
      var s := ToLString(f);
      if s.Err? {
        return Err(Undefined("memcpy from a NULL string"));
      }
      if |s.value| > 128 {
        return Err(Raised("media_catalog_number: length > 128"));
      }
      var catalog := m.data.sheet.catalog;
      m.data := CueSheetBody(m.data.sheet.(catalog := s.value + ['\0'] + catalog[|s.value| + 1..]));
    }
    f := Field(t, "lead_in");
    if !f.Nil? {
      var leadIn :- ToUInt64(f);
      m.data := CueSheetBody(m.data.sheet.(leadIn := leadIn));
    }
    f := Field(t, "is_cd");
    if !f.Nil? {
      m.data := CueSheetBody(m.data.sheet.(isCd := ToBoolean(f)));
    }
    var tf := Field(t, "tracks");
    if !tf.Nil? {
      r := ReadTracks(tf, m);
      return;
    }
    return Ok(());
  }

  /** Track i: built by NewTrack, set into the cue sheet, then given its indices. */
  method ReadTrack(e: Value, m: StreamMetadata, i: nat) returns (r: Result<()>)
    requires m.data.CueSheetBody? && i < |m.data.sheet.tracks|
    modifies m`data
    ensures Agrees(r, CueTrackOf(e))
    ensures r.Ok? ==> m.data == CueSheetBody(WithTrack(old(m.data.sheet), i, CueTrackOf(e).value))
  {
    var track :- NewTrack(e);
    // FLAC__metadata_object_cuesheet_set_track
    m.data := CueSheetBody(WithTrack(m.data.sheet, i, track));
    var xf := GetField(e, "indices").value;
    TrackAssembly(e, track);
    if !xf.Nil? {
      r := ReadIndices(xf, m, i);
      return;
    }
    assert track.(indices := []) == track;
    return Ok(());
  }

  /** The track list resized to rawlen and filled track by track. */
  method ReadTracks(tf: Value, m: StreamMetadata) returns (r: Result<()>)
    requires m.data.CueSheetBody?
    modifies m`data
    ensures Agrees(r, TracksOf(tf))
    ensures r.Ok? ==> m.data == CueSheetBody(old(m.data.sheet).(tracks := TracksOf(tf).value))
  {
    var n := Wrap32(RawLen(tf));
    ghost var items := Elements(tf, n);
    ghost var sheet := m.data.sheet;
    ghost var tracks := Resized(sheet.tracks, n, EMPTY_TRACK);
    // FLAC__metadata_object_cuesheet_resize_tracks
    m.data := CueSheetBody(m.data.sheet.(tracks := Resized(m.data.sheet.tracks, n, EMPTY_TRACK)));
    var i := 0;
    if items.Ok? {
      FillStart(CueTrackOf, items.value, tracks);
    }
    while i < n
      invariant i <= n && |tracks| == n
      invariant m.data == CueSheetBody(sheet.(tracks := tracks))
      invariant items.Err? ==> i == 0
      invariant items.Ok? ==> Filled(CueTrackOf, items.value, tracks, i)
    {
      var got := RawGetI(tf, i + 1);
      if got.Err? {
        assert items.Err? && got == RawGetI(tf, 1);
        return Err(got.failure);
      }
      var e := got.value;
      assert e == items.value[i];
      var res := ReadTrack(e, m, i);
      if res.Err? {
        FillStops(CueTrackOf, items.value, tracks, i);
        return Err(res.failure);
      }
      ghost var t := CueTrackOf(e).value;
      FillStep(CueTrackOf, items.value, tracks, i, t);
      tracks := tracks[i := t];
      i := i + 1;
    }
    assert items.Ok? && |items.value| == n;
    FillDone(CueTrackOf, items.value, tracks);
    return Ok(());
  }

  method ToFlacPicture(block: Value, m: StreamMetadata) returns (r: Result<()>)
    requires block.Table? && m.data.PictureBody?
    modifies m`data
    ensures Agrees(r, PictureOf(block, old(m.data.picture)))
    ensures r.Ok? ==> m.data == PictureBody(PictureOf(block, old(m.data.picture)).value)
  {
    var t := Field(block, "picture");
    if !t.Table? {
      return Err(Raised("missing key: picture"));
    }
    var pictureType := ReadU32(t, "type", m.data.picture.pictureType);
    m.data := PictureBody(m.data.picture.(pictureType := pictureType));
    var width := ReadU32(t, "width", m.data.picture.width);
    m.data := PictureBody(m.data.picture.(width := width));
    var height := ReadU32(t, "height", m.data.picture.height);
    m.data := PictureBody(m.data.picture.(height := height));
    var depth := ReadU32(t, "depth", m.data.picture.depth);
    m.data := PictureBody(m.data.picture.(depth := depth));
    var colors := ReadU32(t, "colors", m.data.picture.colors);
    m.data := PictureBody(m.data.picture.(colors := colors));
    var f := Field(t, "mime_type");
    if !f.Nil? {
      var s := ToLString(f);
      if s.Err? {
        return Err(Undefined("NULL string passed to libFLAC"));
      }
      // FLAC__metadata_object_picture_set_mime_type
      m.data := PictureBody(m.data.picture.(mimeType := CString(s.value)));
    }
    f := Field(t, "description");
    if !f.Nil? {
      var s := ToLString(f);
      if s.Err? {
        return Err(Undefined("NULL string passed to libFLAC"));
      }
      // FLAC__metadata_object_picture_set_description
      m.data := PictureBody(m.data.picture.(description := CString(s.value)));
    }
    f := Field(t, "data");
    if !f.Nil? {
      var s := ToLString(f);
      // FLAC__metadata_object_picture_set_data
      m.data := PictureBody(m.data.picture.(data := if s.Ok? then Truncated(s.value) else []));
    }
    return Ok(());
  }

  /** The switch on the block type: the per-type converter fills the new block. */
  method FillBody(block: Value, lib: Library, m: StreamMetadata) returns (r: Result<()>)
    requires block.Table? && BodyMatches(m.kind, m.data)
    requires m.data.CueSheetBody? ==> |m.data.sheet.catalog| == CATALOG_SIZE
    modifies m`data, m`length
    ensures Agrees(r, BodyOf(block, lib, old(m.Value())))
    ensures r.Ok? ==> m.Value() == BodyOf(block, lib, old(m.Value())).value
  {
    var kind := m.kind;
    if kind == STREAMINFO {
      r := ToFlacStreamInfo(block, m);
    } else if kind == PADDING {
      r := ToFlacPadding(block, m);
    } else if kind == APPLICATION {
      r := ToFlacApplication(block, m);
    } else if kind == SEEKTABLE {
      r := ToFlacSeekTable(block, m);
    } else if kind == VORBIS_COMMENT {
      r := ToFlacVorbisComment(block, lib, m);
    } else if kind == CUESHEET {
      r := ToFlacCueSheet(block, m);
    } else if kind == PICTURE {
      r := ToFlacPicture(block, m);
    } else {
      r := Err(Raised("unknown metadata type"));
    }
  }

  /** luaflac_toflac_streammetadata: a new block built from the table, or the failure
      raised (after the half-built block is deleted). */
  method ToFlac(block: Value, lib: Library) returns (r: Result<StreamMetadata>)
    ensures r.Ok? <==> ToFlacSpec(block, lib).Ok?
    ensures r.Err? ==> r.failure == ToFlacSpec(block, lib).failure
    ensures r.Ok? ==> fresh(r.value) && r.value.Value() == ToFlacSpec(block, lib).value
  {
    if !block.Table? {
      return Err(Raised("invalid table"));
    }
    var kind := Wrap32(ToInteger(Field(block, "type")));
    if kind > MAX_METADATA_TYPE {
      return Err(Raised("memory error"));
    }
    var m := new StreamMetadata(kind, lib.vendor);
    var f := Field(block, "is_last");
    if !f.Nil? {
      m.isLast := ToBoolean(f);
    }
    var res := FillBody(block, lib, m);
    if res.Err? {
      return Err(res.failure);
    }
    return Ok(m);
  }
}
