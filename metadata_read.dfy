/** What luaflac_toflac_streammetadata makes of a Lua table, stated as functions from the
    table to the block it describes (or to the error raised). Every field is optional
    except where noted; an absent field keeps the value FLAC__metadata_object_new gave
    it. The imperative converters in MetadataToFlac are proved against these. */
module MetadataRead {
  import opened MachineInt
  import opened CLib
  import opened Lua
  import opened Int64Convert
  import opened FlacMetadata

  /** The parts of libFLAC the conversion depends on but this model does not contain:
      the vendor string of a fresh VORBIS_COMMENT block, the check
      FLAC__metadata_object_vorbiscomment_set_comment makes of a whole "NAME=value"
      entry and the one set_vendor_string makes of a value. */
  datatype Library = Library(vendor: string, entryIsLegal: string -> bool, valueIsLegal: string -> bool)

  /** An optional integer field stored in a 32-bit unsigned field. */
  function OptU32(t: Value, key: string, d: u32): u32
    requires t.Table?
  {
    var f := Field(t, key);
    if f.Nil? then d else Wrap32(ToInteger(f))
  }

  /** An optional field read with luaflac_touint64. */
  function OptU64(t: Value, key: string, d: u64): Result<u64>
    requires t.Table?
  {
    var f := Field(t, key);
    if f.Nil? then Ok(d) else UInt64Of(f)
  }

  /** An optional field read with lua_toboolean. */
  function OptBool(t: Value, key: string, d: bool): bool
    requires t.Table?
  {
    var f := Field(t, key);
    if f.Nil? then d else ToBoolean(f)
  }

  /** md5sum: a string of exactly 16 bytes when present. */
  function Md5Of(f: Value, d: seq<char>): (r: Result<seq<char>>)
    ensures f.Nil? ==> r == Ok(d)
    ensures !f.Nil? && r.Ok? ==> |r.value| == 16 && CheckLString(f) == Ok(r.value)
    ensures !f.Nil? && CheckLString(f).Ok? ==> (r.Ok? <==> |CheckLString(f).value| == 16)
  {
    if f.Nil? then Ok(d)
    else
      var s :- CheckLString(f);
      if |s| != 16 then Err(Raised("incorrect md5sum length")) else Ok(s)
  }

  function StreamInfoOf(block: Value, d: StreamInfo): Result<StreamInfo>
    requires block.Table?
  {
    var t := Field(block, "stream_info");
    if !t.Table? then Err(Raised("missing key: stream_info"))
    else
      var total :- OptU64(t, "total_samples", d.totalSamples);
      var md5 :- Md5Of(Field(t, "md5sum"), d.md5sum);
      Ok(StreamInfo(
        OptU32(t, "min_blocksize", d.minBlocksize), OptU32(t, "max_blocksize", d.maxBlocksize),
        OptU32(t, "min_framesize", d.minFramesize), OptU32(t, "max_framesize", d.maxFramesize),
        OptU32(t, "sample_rate", d.sampleRate), OptU32(t, "channels", d.channels),
        OptU32(t, "bits_per_sample", d.bitsPerSample), total, md5))
  }

  /** PADDING: the dummy field, and the block's length read from the block table's own
      "length" field. */
  function PaddingOf(block: Value, d: i32): Result<(i32, u32)>
    requires block.Table?
  {
    var t := Field(block, "padding");
    if !t.Table? then Err(Raised("missing key: padding"))
    else
      var f := Field(t, "dummy");
      Ok((if f.Nil? then d else WrapS32(ToInteger(f)), Wrap32(ToInteger(Field(block, "length")))))
  }

  /** APPLICATION: both fields required; the first 4 bytes of id, and data. */
  function ApplicationOf(block: Value): Result<(seq<char>, seq<char>)>
    requires block.Table?
  {
    var t := Field(block, "application");
    if !t.Table? then Err(Raised("missing key: application"))
    else
      var id :- CheckLString(Field(t, "id"));
      if |id| < 4 then Err(Raised("incorrect id length"))
      else
        var data :- CheckLString(Field(t, "data"));
        Ok((id[..4], Truncated(data)))
  }

  /** A seek point; once the first lua_getfield on the element succeeds, the others on
      the same element succeed too. */
  function PointOf(e: Value): Result<SeekPoint> {
    var sf :- GetField(e, "sample_number");
    var sample :- UInt64Of(sf);
    var offset :- UInt64Of(GetField(e, "stream_offset").value);
    var frames :- CheckInteger(GetField(e, "frame_samples").value);
    Ok(SeekPoint(sample, offset, Wrap32(frames)))
  }

  /** SEEKTABLE: seek_table.points is required and must be a table; point i is built from
      its element i + 1 (of the first rawlen mod 2^32 elements). */
  function SeekTableOf(block: Value): Result<seq<SeekPoint>>
    requires block.Table?
  {
    var t := Field(block, "seek_table");
    if !t.Table? then Err(Raised("missing key: seek_table"))
    else
      var p := Field(t, "points");
      if !p.Table? then Err(Raised("missing key: points"))
      else
        MapFrom(PointOf, p.items[..Wrap32(|p.items|)], 0)
  }

  function CommentOf(lib: Library, e: Value): Result<string> {
    var s := ToLString(e);
    if s.Err? then Err(Raised("entry not a string"))
    else if !lib.entryIsLegal(Truncated(s.value)) then Err(Raised("error calling set_comment"))
    else Ok(Truncated(s.value))
  }

  /** CommentOf with the library fixed, as one function value. */
  function CommentReader(lib: Library): Value -> Result<string> {
    e => CommentOf(lib, e)
  }

  /** VORBIS_COMMENT: a vendor_string that lua_tolstring cannot convert is ignored; the
      comments replace the old ones in their order. */
  function VorbisCommentOf(block: Value, lib: Library, vendor: string, comments: seq<string>): Result<(string, seq<string>)>
    requires block.Table?
  {
    var t := Field(block, "vorbis_comment");
    if !t.Table? then Err(Raised("missing key: vorbis_comment"))
    else
      var vf := Field(t, "vendor_string");
      var vs := ToLString(vf);
      if !vf.Nil? && vs.Ok? && !lib.valueIsLegal(Truncated(vs.value)) then Err(Raised("error setting vendor string"))
      else
        var vendor' := if !vf.Nil? && vs.Ok? then Truncated(vs.value) else vendor;
        var cf := Field(t, "comments");
        if cf.Nil? then Ok((vendor', comments))
        else
          var cs :- CommentsOf(lib, cf);
          Ok((vendor', cs))
  }

  /** The comments replacing the old ones: the first rawlen mod 2^32 elements, in order. */
  function CommentsOf(lib: Library, cf: Value): Result<seq<string>> {
    var items :- Elements(cf, Wrap32(RawLen(cf)));
    MapFrom(CommentReader(lib), items, 0)
  }

  /** A string copied into a fixed array of size n with its NUL terminator: longer than
      n - 1 bytes is refused; a value lua_tolstring cannot convert leaves memcpy a NULL
      source. */
  function FixedStringOf(f: Value, d: seq<char>, n: nat, tooLong: string): (r: Result<seq<char>>)
    requires |d| == n
    ensures r.Ok? ==> |r.value| == n
  {
    var s := ToLString(f);
    if s.Err? then Err(Undefined("memcpy from a NULL string"))
    else if |s.value| > n - 1 then Err(Raised(tooLong))
    else Ok(s.value + ['\0'] + d[|s.value| + 1..])
  }

  /** A cue point index: absent fields are set to 0. */
  function CueIndexOf(e: Value): Result<CueIndex> {
    var of :- GetField(e, "offset");
    var offset :- if of.Nil? then Ok(0) else UInt64Of(of);
    var nf := GetField(e, "number").value;
    Ok(CueIndex(offset, if nf.Nil? then 0 else Wrap8(ToInteger(nf))))
  }

  /** The track set with FLAC__metadata_object_cuesheet_set_track: it starts as
      EMPTY_TRACK; type and pre_emphasis are 1-bit fields. */
  function CueTrackHeadOf(e: Value): (r: Result<CueTrack>)
    ensures r.Ok? ==> GetField(e, "indices").Ok? && r.value.indices == []
  {
    var of :- GetField(e, "offset");
    var offset :- if of.Nil? then Ok(0) else UInt64Of(of);
    var nf := GetField(e, "number").value;
    var sf := GetField(e, "isrc").value;
    var isrc :- if sf.Nil? then Ok(EMPTY_TRACK.isrc) else FixedStringOf(sf, EMPTY_TRACK.isrc, ISRC_SIZE, "incorrect isrc length");
    var tf := GetField(e, "type").value;
    var pf := GetField(e, "pre_emphasis").value;
    Ok(CueTrack(offset, if nf.Nil? then 0 else Wrap8(ToInteger(nf)), isrc,
                if tf.Nil? then 0 else ToInteger(tf) % 2,
                if pf.Nil? then 0 else ToInteger(pf) % 2, []))
  }

  /** The indices of a track: only the first rawlen mod 256 elements are read, since the
      count is stored in a byte. */
  function IndicesOf(xf: Value): Result<seq<CueIndex>> {
    if xf.Nil? then Ok([])
    else
      var items :- Elements(xf, Wrap8(RawLen(xf)));
      MapFrom(CueIndexOf, items, 0)
  }

  function CueTrackOf(e: Value): Result<CueTrack> {
    var head :- CueTrackHeadOf(e);
    var indices :- IndicesOf(GetField(e, "indices").value);
    Ok(head.(indices := indices))
  }

  /** A track is its head with the indices read after it; a failure reading them is the
      track's failure. */
  lemma TrackAssembly(e: Value, head: CueTrack)
    requires CueTrackHeadOf(e) == Ok(head)
    ensures var indices := IndicesOf(GetField(e, "indices").value);
      CueTrackOf(e) == if indices.Ok? then Ok(head.(indices := indices.value)) else Err(indices.failure)
  {
  }

  function CueSheetOf(block: Value, d: CueSheet): Result<CueSheet>
    requires block.Table? && |d.catalog| == CATALOG_SIZE
  {
    var t := Field(block, "cue_sheet");
    if !t.Table? then Err(Raised("missing key: cue_sheet"))
    else
      var mf := Field(t, "media_catalog_number");
      var catalog :- if mf.Nil? then Ok(d.catalog) else FixedStringOf(mf, d.catalog, CATALOG_SIZE, "media_catalog_number: length > 128");
      var leadIn :- OptU64(t, "lead_in", d.leadIn);
      var isCd := OptBool(t, "is_cd", d.isCd);
      var tf := Field(t, "tracks");
      if tf.Nil? then Ok(CueSheet(catalog, leadIn, isCd, d.tracks))
      else
        var tracks :- TracksOf(tf);
        Ok(CueSheet(catalog, leadIn, isCd, tracks))
  }

  /** The tracks replacing the old ones: the first rawlen mod 2^32 elements, in order. */
  function TracksOf(tf: Value): Result<seq<CueTrack>> {
    var items :- Elements(tf, Wrap32(RawLen(tf)));
    MapFrom(CueTrackOf, items, 0)
  }

  /** A C string field set through lua_tostring: a value it cannot convert hands libFLAC
      a NULL string. */
  function CStringOf(f: Value): Result<string> {
    var s := ToLString(f);
    if s.Err? then Err(Undefined("NULL string passed to libFLAC")) else Ok(CString(s.value))
  }

  function PictureOf(block: Value, d: Picture): Result<Picture>
    requires block.Table?
  {
    var t := Field(block, "picture");
    if !t.Table? then Err(Raised("missing key: picture"))
    else
      var mf := Field(t, "mime_type");
      var mime :- if mf.Nil? then Ok(d.mimeType) else CStringOf(mf);
      var df := Field(t, "description");
      var description :- if df.Nil? then Ok(d.description) else CStringOf(df);
      var bf := Field(t, "data");
      var bs := ToLString(bf);
      var data := if bf.Nil? then d.data else if bs.Ok? then Truncated(bs.value) else [];
      Ok(Picture(
        OptU32(t, "type", d.pictureType), mime, description, OptU32(t, "width", d.width),
        OptU32(t, "height", d.height), OptU32(t, "depth", d.depth), OptU32(t, "colors", d.colors),
        data))
  }

  /** The type code of a block table: lua_tointeger of its "type" field, converted to the
      32-bit enum FLAC__MetadataType. */
  function KindOf(block: Value): u32
    requires block.Table?
  {
    Wrap32(ToInteger(Field(block, "type")))
  }

  /** luaflac_toflac_streammetadata: the block a Lua table describes. */
  function ToFlacSpec(block: Value, lib: Library): Result<Record> {
    if !block.Table? then Err(Raised("invalid table"))
    else
      var kind := KindOf(block);
      if kind > MAX_METADATA_TYPE then Err(Raised("memory error"))
      else
        BodyOf(block, lib, Record(kind, OptBool(block, "is_last", false), InitialLength(kind, lib.vendor), DefaultBody(kind, lib.vendor)))
  }

  /** The per-type converter chosen by the block's type, applied to the new block. */
  function BodyOf(block: Value, lib: Library, base: Record): Result<Record>
    requires block.Table? && BodyMatches(base.kind, base.data)
    requires base.data.CueSheetBody? ==> |base.data.sheet.catalog| == CATALOG_SIZE
  {
    var d := base.data;
    if base.kind == STREAMINFO then
      var info :- StreamInfoOf(block, d.info);
      Ok(base.(data := StreamInfoBody(info)))
    else if base.kind == PADDING then
      var p :- PaddingOf(block, d.dummy);
      Ok(base.(length := p.1, data := PaddingBody(p.0)))
    else if base.kind == APPLICATION then
      var a :- ApplicationOf(block);
      Ok(base.(length := Wrap32(4 + |a.1|), data := ApplicationBody(a.0, a.1)))
    else if base.kind == SEEKTABLE then
      var points :- SeekTableOf(block);
      Ok(base.(data := SeekTableBody(points)))
    else if base.kind == VORBIS_COMMENT then
      var v :- VorbisCommentOf(block, lib, d.vendor, d.comments);
      Ok(base.(data := VorbisCommentBody(v.0, v.1)))
    else if base.kind == CUESHEET then
      var sheet :- CueSheetOf(block, d.sheet);
      Ok(base.(data := CueSheetBody(sheet)))
    else if base.kind == PICTURE then
      var picture :- PictureOf(block, d.picture);
      Ok(base.(data := PictureBody(picture)))
    else Err(Raised("unknown metadata type"))
  }
}
