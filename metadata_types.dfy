/** FLAC__StreamMetadata as libFLAC lays it out: a header (type, is_last, length) and a
    union holding the body of the block's type. The union is the datatype Body; the
    object libFLAC allocates and the binding fills in place is the class StreamMetadata.
    Byte buffers are sequences of char, one char per byte, as Lua strings are. */
module FlacMetadata {
  import opened MachineInt

  const STREAMINFO: u32 := 0
  const PADDING: u32 := 1
  const APPLICATION: u32 := 2
  const SEEKTABLE: u32 := 3
  const VORBIS_COMMENT: u32 := 4
  const CUESHEET: u32 := 5
  const PICTURE: u32 := 6
  /** FLAC__MAX_METADATA_TYPE: the largest type code FLAC__metadata_object_new accepts. */
  const MAX_METADATA_TYPE: u32 := 126

  /** The size of media_catalog_number (128 characters and a NUL) and of isrc (12 and a
      NUL). */
  const CATALOG_SIZE: nat := 129
  const ISRC_SIZE: nat := 13

  /** A 1-bit unsigned bit-field. */
  type bit = x: int | 0 <= x < 2

  datatype StreamInfo = StreamInfo(
    minBlocksize: u32, maxBlocksize: u32, minFramesize: u32, maxFramesize: u32,
    sampleRate: u32, channels: u32, bitsPerSample: u32, totalSamples: u64,
    md5sum: seq<char>)

  datatype SeekPoint = SeekPoint(sampleNumber: u64, streamOffset: u64, frameSamples: u32)

  datatype CueIndex = CueIndex(offset: u64, number: u8)

  /** isrc is the whole 13-byte array; `trackType` is the field C calls type. */
  datatype CueTrack = CueTrack(
    offset: u64, number: u8, isrc: seq<char>, trackType: bit, preEmphasis: bit,
    indices: seq<CueIndex>)

  /** catalog is the whole 129-byte media_catalog_number array. */
  datatype CueSheet = CueSheet(catalog: seq<char>, leadIn: u64, isCd: bool, tracks: seq<CueTrack>)

  /** mimeType and description are the text of NUL-terminated strings. */
  datatype Picture = Picture(
    pictureType: u32, mimeType: string, description: string, width: u32, height: u32,
    depth: u32, colors: u32, data: seq<char>)

  datatype Body =
    | StreamInfoBody(info: StreamInfo)
    | PaddingBody(dummy: i32)
    | ApplicationBody(id: seq<char>, appData: seq<char>)
    | SeekTableBody(points: seq<SeekPoint>)
    | VorbisCommentBody(vendor: string, comments: seq<string>)
    | CueSheetBody(sheet: CueSheet)
    | PictureBody(picture: Picture)
      /** the raw bytes of a block of a type libFLAC does not interpret */
    | UnknownBody(raw: seq<char>)

  /** The value of one metadata block. */
  datatype Record = Record(kind: u32, isLast: bool, length: u32, data: Body)

  function Zeros(n: nat): (r: seq<char>)
    ensures |r| == n && forall i :: 0 <= i < n ==> r[i] == '\0'
  {
    seq(n, _ => '\0')
  }

  /** A byte string handed to libFLAC together with a 32-bit length: only the first
      length mod 2^32 bytes get through. */
  function Truncated(s: seq<char>): (r: seq<char>)
    ensures |s| < TWO_32 ==> r == s
    ensures |r| < TWO_32 && r == s[..|r|]
  {
    s[..Wrap32(|s|)]
  }

  /** A sequence resized to n elements the way libFLAC's resize functions do it: the
      first n elements are kept, new ones are filled in. */
  function Resized<T>(s: seq<T>, n: nat, fill: T): (r: seq<T>)
    ensures |r| == n
    ensures forall i :: 0 <= i < n ==> r[i] == if i < |s| then s[i] else fill
  {
    if n <= |s| then s[..n] else s + seq(n - |s|, _ => fill)
  }

  /** FLAC__metadata_object_seektable_resize_points fills new points with placeholders. */
  const PLACEHOLDER: SeekPoint := SeekPoint(UINT64_MAX, 0, 0)

  /** What FLAC__metadata_object_cuesheet_track_new returns: every field zero. */
  const EMPTY_TRACK: CueTrack := CueTrack(0, 0, Zeros(ISRC_SIZE), 0, 0, [])

  /** The cue sheet with track i replaced. */
  function WithTrack(s: CueSheet, i: nat, t: CueTrack): (r: CueSheet)
    requires i < |s.tracks|
    ensures r.catalog == s.catalog && r.leadIn == s.leadIn && r.isCd == s.isCd
    ensures |r.tracks| == |s.tracks| && r.tracks[i] == t
    ensures forall k :: 0 <= k < |s.tracks| && k != i ==> r.tracks[k] == s.tracks[k]
  {
    s.(tracks := s.tracks[i := t])
  }

  /** Replacing the same track twice keeps only the second replacement. */
  lemma WithTrackTwice(s: CueSheet, i: nat, t: CueTrack, t': CueTrack)
    requires i < |s.tracks|
    ensures WithTrack(WithTrack(s, i, t), i, t') == WithTrack(s, i, t')
  {
    assert s.tracks[i := t][i := t'] == s.tracks[i := t'];
  }

  /** The body FLAC__metadata_object_new gives a fresh block of type kind (zero-filled,
      with libFLAC's own vendor string in a VORBIS_COMMENT block). */
  function DefaultBody(kind: u32, vendor: string): (b: Body)
    ensures BodyMatches(kind, b)
  {
    if kind == STREAMINFO then StreamInfoBody(StreamInfo(0, 0, 0, 0, 0, 0, 0, 0, Zeros(16)))
    else if kind == PADDING then PaddingBody(0)
    else if kind == APPLICATION then ApplicationBody(Zeros(4), [])
    else if kind == SEEKTABLE then SeekTableBody([])
    else if kind == VORBIS_COMMENT then VorbisCommentBody(vendor, [])
    else if kind == CUESHEET then CueSheetBody(CueSheet(Zeros(CATALOG_SIZE), 0, false, []))
    else if kind == PICTURE then PictureBody(Picture(0, "", "", 0, 0, 0, 0, []))
    else UnknownBody([])
  }

  /** The length FLAC__metadata_object_new gives a fresh block: the encoded size of its
      default body. */
  function InitialLength(kind: u32, vendor: string): u32 {
    if kind == STREAMINFO then 34
    else if kind == APPLICATION then 4
    else if kind == VORBIS_COMMENT then Wrap32(8 + |vendor|)
    else if kind == CUESHEET then 396
    else if kind == PICTURE then 32
    else 0
  }

  /** The union member in use is the one of the block's type. */
  predicate BodyMatches(kind: u32, b: Body) {
    match b
    case StreamInfoBody(_) => kind == STREAMINFO
    case PaddingBody(_) => kind == PADDING
    case ApplicationBody(_, _) => kind == APPLICATION
    case SeekTableBody(_) => kind == SEEKTABLE
    case VorbisCommentBody(_, _) => kind == VORBIS_COMMENT
    case CueSheetBody(_) => kind == CUESHEET
    case PictureBody(_) => kind == PICTURE
    case UnknownBody(_) => PICTURE < kind
  }

  predicate NoNul(s: string) {
    forall i :: 0 <= i < |s| ==> s[i] != '\0'
  }

  predicate ValidTrack(t: CueTrack) {
    |t.isrc| == ISRC_SIZE && |t.indices| < TWO_8
  }

  predicate ValidSheet(s: CueSheet) {
    |s.catalog| == CATALOG_SIZE && |s.tracks| < TWO_32 &&
    forall i :: 0 <= i < |s.tracks| ==> |s.tracks[i].isrc| == ISRC_SIZE && |s.tracks[i].indices| < TWO_8
  }

  /** What the C types of the fields guarantee of every block libFLAC holds: fixed-size
      arrays have their size, counts fit their integer fields, C strings hold no NUL,
      and the length of an APPLICATION or unknown block counts its bytes (modulo 2^32,
      as libFLAC adds them). */
  predicate ValidRecord(r: Record) {
    r.kind <= MAX_METADATA_TYPE && BodyMatches(r.kind, r.data) &&
    match r.data
    case StreamInfoBody(info) => |info.md5sum| == 16
    case PaddingBody(_) => true
    case ApplicationBody(id, data) => |id| == 4 && |data| < TWO_32 && r.length == Wrap32(4 + |data|)
    case SeekTableBody(points) => |points| < TWO_32
    case VorbisCommentBody(vendor, comments) =>
      |vendor| < TWO_32 && |comments| < TWO_32 &&
      forall i :: 0 <= i < |comments| ==> |comments[i]| < TWO_32
    case CueSheetBody(sheet) => ValidSheet(sheet)
    case PictureBody(p) => NoNul(p.mimeType) && NoNul(p.description) && |p.data| < TWO_32
    case UnknownBody(raw) => r.length == |raw|
  }

  /** A block libFLAC has allocated; the binding fills its fields in place. */
  class StreamMetadata {
    var kind: u32
    var isLast: bool
    var length: u32
    var data: Body

    /** FLAC__metadata_object_new(kind), for a type code it accepts. */
    constructor (kind: u32, vendor: string)
      requires kind <= MAX_METADATA_TYPE
      ensures this.kind == kind && !isLast && length == InitialLength(kind, vendor)
      ensures data == DefaultBody(kind, vendor)
    {
      this.kind := kind;
      isLast := false;
      length := InitialLength(kind, vendor);
      data := DefaultBody(kind, vendor);
    }

    function Value(): Record
      reads this
    {
      Record(kind, isLast, length, data)
    }
  }
}
