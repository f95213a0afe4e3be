/** luaflac_pushstreammetadata: the Lua table a block becomes. The tables are stated as
    functions of the block; the emitters that build them with loops are methods proved to
    build exactly those tables. The APPLICATION and unknown-type emitters are given in the
    corrected form here; the form the source has is in MetadataFindings. */
module MetadataPush {
  import opened MachineInt
  import opened CLib
  import opened Lua
  import opened FlacMetadata

  function StreamInfoTable(s: StreamInfo): Value {
    Table(map[
      "min_blocksize" := Integer(s.minBlocksize), "max_blocksize" := Integer(s.maxBlocksize),
      "min_framesize" := Integer(s.minFramesize), "max_framesize" := Integer(s.maxFramesize),
      "sample_rate" := Integer(s.sampleRate), "channels" := Integer(s.channels),
      "bits_per_sample" := Integer(s.bitsPerSample), "total_samples" := UInt64(s.totalSamples),
      "md5sum" := Str(s.md5sum)], [])
  }

  function PaddingTable(dummy: i32): Value {
    Table(map["dummy" := Integer(dummy)], [])
  }

  /** The APPLICATION table with its data as the block holds it. */
  function ApplicationTable(id: seq<char>, data: seq<char>): Value {
    Table(map["id" := Str(id), "data" := Str(data)], [])
  }

  function PointTable(p: SeekPoint): Value {
    Table(map[
      "sample_number" := UInt64(p.sampleNumber), "stream_offset" := UInt64(p.streamOffset),
      "frame_samples" := Integer(p.frameSamples)], [])
  }

  /** A list whose element k + 1 is f(xs[k]). */
  function ListOf<A>(xs: seq<A>, f: A -> Value): (v: Value)
    ensures v.Table? && v.fields == map[] && |v.items| == |xs|
    ensures forall k :: 0 <= k < |xs| ==> v.items[k] == f(xs[k])
  {
    Table(map[], seq(|xs|, k requires 0 <= k < |xs| => f(xs[k])))
  }

  function SeekTableTable(points: seq<SeekPoint>): Value
    requires |points| < TWO_32
  {
    Table(map["num_points" := Integer(|points|), "points" := ListOf(points, PointTable)], [])
  }

  function CommentValue(c: string): Value {
    Str(c)
  }

  function VorbisCommentTable(vendor: string, comments: seq<string>): Value
    requires |comments| < TWO_32
  {
    Table(map[
      "vendor_string" := Str(vendor), "num_comments" := Integer(|comments|),
      "comments" := ListOf(comments, CommentValue)], [])
  }

  function IndexTable(x: CueIndex): Value {
    Table(map["offset" := UInt64(x.offset), "number" := Integer(x.number)], [])
  }

  /** A track; isrc is pushed with lua_pushstring, so only up to its first NUL. */
  function TrackTable(t: CueTrack): Value
    requires |t.indices| < TWO_8
  {
    Table(map[
      "offset" := UInt64(t.offset), "number" := Integer(t.number), "isrc" := Str(CString(t.isrc)),
      "type" := Integer(t.trackType), "pre_emphasis" := Integer(t.preEmphasis),
      "num_indices" := Integer(|t.indices|), "indices" := ListOf(t.indices, IndexTable)], [])
  }

  function TrackValue(t: CueTrack): Value {
    if |t.indices| < TWO_8 then TrackTable(t) else Nil
  }

  /** The cue sheet; lead_in goes out through lua_pushinteger, so as a signed integer. */
  function CueSheetTable(s: CueSheet): Value
    requires |s.tracks| < TWO_32 && forall i :: 0 <= i < |s.tracks| ==> |s.tracks[i].indices| < TWO_8
  {
    Table(map[
      "media_catalog_number" := Str(CString(s.catalog)), "lead_in" := Integer(ToSigned(s.leadIn)),
      "is_cd" := Boolean(s.isCd), "num_tracks" := Integer(|s.tracks|),
      "tracks" := ListOf(s.tracks, TrackValue)], [])
  }

  /** The picture; its description is not emitted. */
  function PictureTable(p: Picture): Value
    requires |p.data| < TWO_32
  {
    Table(map[
      "type" := Integer(p.pictureType), "mime_type" := Str(CString(p.mimeType)),
      "width" := Integer(p.width), "height" := Integer(p.height), "depth" := Integer(p.depth),
      "colors" := Integer(p.colors), "data_length" := Integer(|p.data|), "data" := Str(p.data)], [])
  }

  /** The field the body is pushed under, with its value. */
  function BodyFields(r: Record): map<string, Value>
    requires ValidRecord(r)
  {
    match r.data
    case StreamInfoBody(info) => map["stream_info" := StreamInfoTable(info)]
    case PaddingBody(dummy) => map["padding" := PaddingTable(dummy)]
    case ApplicationBody(id, data) => map["application" := ApplicationTable(id, data)]
    case SeekTableBody(points) => map["seek_table" := SeekTableTable(points)]
    case VorbisCommentBody(vendor, comments) => map["vorbis_comment" := VorbisCommentTable(vendor, comments)]
    case CueSheetBody(sheet) => map["cue_sheet" := CueSheetTable(sheet)]
    case PictureBody(picture) => map["picture" := PictureTable(picture)]
    case UnknownBody(raw) => map["data" := Str(raw)]
  }

  function Header(r: Record): map<string, Value> {
    map["type" := Integer(r.kind), "is_last" := Boolean(r.isLast), "length" := Integer(r.length)]
  }

  /** The table a block becomes: its header fields and its body field. */
  function PushSpec(r: Record): (v: Value)
    requires ValidRecord(r)
    ensures v.Table? && v.items == []
    ensures "type" in v.fields && v.fields["type"] == Integer(r.kind)
    ensures "is_last" in v.fields && v.fields["is_last"] == Boolean(r.isLast)
    ensures "length" in v.fields && v.fields["length"] == Integer(r.length)
  {
    Table(BodyFields(r) + Header(r), [])
  }

  /** luaflac_pushstreammetadata_seek_table */
  method PushSeekTable(points: seq<SeekPoint>) returns (v: Value)
    requires |points| < TWO_32
    ensures v == SeekTableTable(points)
  {
    var list: seq<Value> := [];
    var i := 0;
    while i < |points|
      invariant i <= |points| && |list| == i
      invariant forall k :: 0 <= k < i ==> list[k] == PointTable(points[k])
    {
      var point: map<string, Value> := map[];
      point := point["sample_number" := UInt64(points[i].sampleNumber)];
      point := point["stream_offset" := UInt64(points[i].streamOffset)];
      point := point["frame_samples" := Integer(points[i].frameSamples)];
      list := list + [Table(point, [])];
      i := i + 1;
    }
    assert list == ListOf(points, PointTable).items;
    v := Table(map["num_points" := Integer(|points|), "points" := Table(map[], list)], []);
  }

  /** luaflac_pushstreammetadata_vorbis_comment */
  method PushVorbisComment(vendor: string, comments: seq<string>) returns (v: Value)
    requires |comments| < TWO_32
    ensures v == VorbisCommentTable(vendor, comments)
  {
    var list: seq<Value> := [];
    var i := 0;
    while i < |comments|
      invariant i <= |comments| && |list| == i
      invariant forall k :: 0 <= k < i ==> list[k] == Str(comments[k])
    {
      list := list + [Str(comments[i])];
      i := i + 1;
    }
    assert list == ListOf(comments, CommentValue).items;
    v := Table(map[
      "vendor_string" := Str(vendor), "num_comments" := Integer(|comments|),
      "comments" := Table(map[], list)], []);
  }

  /** One track of luaflac_pushstreammetadata_cue_sheet, with its inner loop. */
  method PushTrack(t: CueTrack) returns (v: Value)
    requires |t.indices| < TWO_8
    ensures v == TrackTable(t)
  {
    var list: seq<Value> := [];
    var j := 0;
    while j < |t.indices|
      invariant j <= |t.indices| && |list| == j
      invariant forall k :: 0 <= k < j ==> list[k] == IndexTable(t.indices[k])
    {
      var index: map<string, Value> := map[];
      index := index["offset" := UInt64(t.indices[j].offset)];
      index := index["number" := Integer(t.indices[j].number)];
      list := list + [Table(index, [])];
      j := j + 1;
    }
    assert list == ListOf(t.indices, IndexTable).items;
    v := Table(map[
      "offset" := UInt64(t.offset), "number" := Integer(t.number), "isrc" := Str(CString(t.isrc)),
      "type" := Integer(t.trackType), "pre_emphasis" := Integer(t.preEmphasis),
      "num_indices" := Integer(|t.indices|), "indices" := Table(map[], list)], []);
  }

  /** luaflac_pushstreammetadata_cue_sheet */
  method PushCueSheet(s: CueSheet) returns (v: Value)
    requires |s.tracks| < TWO_32 && forall i :: 0 <= i < |s.tracks| ==> |s.tracks[i].indices| < TWO_8
    ensures v == CueSheetTable(s)
  {
    var list: seq<Value> := [];
    var i := 0;
    while i < |s.tracks|
      invariant i <= |s.tracks| && |list| == i
      invariant forall k :: 0 <= k < i ==> list[k] == TrackValue(s.tracks[k])
    {
      var track := PushTrack(s.tracks[i]);
      list := list + [track];
      i := i + 1;
    }
    assert list == ListOf(s.tracks, TrackValue).items;
    v := Table(map[
      "media_catalog_number" := Str(CString(s.catalog)), "lead_in" := Integer(ToSigned(s.leadIn)),
      "is_cd" := Boolean(s.isCd), "num_tracks" := Integer(|s.tracks|),
      "tracks" := Table(map[], list)], []);
  }

  /** luaflac_pushstreammetadata, with the corrected APPLICATION and unknown-type
      emitters. */
  method PushStreamMetadata(m: StreamMetadata) returns (v: Value)
    requires ValidRecord(m.Value())
    ensures v == PushSpec(m.Value())
  {
    var fields := map["type" := Integer(m.kind), "is_last" := Boolean(m.isLast), "length" := Integer(m.length)];
    var body: map<string, Value>;
    match m.data {
    case StreamInfoBody(info) =>
      body := map["stream_info" := StreamInfoTable(info)];
    case PaddingBody(dummy) =>
      body := map["padding" := PaddingTable(dummy)];
    case ApplicationBody(id, data) =>
      body := map["application" := ApplicationTable(id, data)];
    case SeekTableBody(points) =>
      var t := PushSeekTable(points);
      body := map["seek_table" := t];
    case VorbisCommentBody(vendor, comments) =>
      var t := PushVorbisComment(vendor, comments);
      body := map["vorbis_comment" := t];
    case CueSheetBody(sheet) =>
      var t := PushCueSheet(sheet);
      body := map["cue_sheet" := t];
    case PictureBody(picture) =>
      body := map["picture" := PictureTable(picture)];
    case UnknownBody(raw) =>
      body := map["data" := Str(raw)];
    }
    v := Table(body + fields, []);
  }
}
