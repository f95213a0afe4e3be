# luaflac core in Dafny

This project models the two pieces of logic the luaflac Lua binding adds on top of
libFLAC.

**64-bit integers for Lua** (`csrc/luaflac_int64.c`)

- The `FLAC__uint64` and `FLAC__int64` userdata types and their metamethods: arithmetic, bitwise operations, comparisons, negation and `__pow`.
- The decimal formatters `luaflac_uint64_to_str` and `luaflac_int64_to_str`. They write digits backwards into a fixed buffer.
- The conversions `luaflac_touint64` and `luaflac_toint64`. These accept nil, booleans, integers, both userdata types and decimal strings.

**Metadata blocks** (`csrc/luaflac_metadata.c`)

- `luaflac_toflac_streammetadata` turns a Lua table into a `FLAC__StreamMetadata` block that libFLAC allocated. It fills the block in place: seek points, comments, cue-sheet tracks and their indices are filled by counting loops. It raises a Lua error on a malformed table.
- `luaflac_pushstreammetadata` turns a block back into a Lua table, also with loops.

The model is organised as follows.

- Machine integers are unbounded Dafny integers, with every C wrap-around written out (`MachineInt`). Bitwise operations are defined bit by bit (`BitOps`).
- Lua values are a datatype (`Lua.Value`), and a Lua error is a `Result` failure.
- A block is the class `FlacMetadata.StreamMetadata`. Its fields are the header (type, `is_last`, `length`) and the body union (`FlacMetadata.Body`).
- Each converter is a `method` that updates that object and loops the way the C code does. Each is proved against a function of the input table (`MetadataRead`).
- The emitters are methods proved to build the table that `MetadataPush` specifies.
- Lemmas relate the two directions (`MetadataRoundTrip`) and state the validation rules (`MetadataRules`).

C undefined behaviour that the binding can reach is a failure `Undefined(...)`, not a
precondition. Examples are `lua_rawgeti` on a non-table, `memcpy` from a NULL string, and a
NULL string passed to libFLAC. The exceptions are the arithmetic cases listed below.

Signed 64-bit overflow in `+`, `-`, `*`, `<<` and `__pow` is modelled as two's-complement
wrap-around, which is what the compiled code does on every common target. The model proves
that each result is exact whenever the mathematical result fits. The same convention gives
`INT64_MIN`:

- `luaflac_int64_to_str` prints the magnitude 2^63 correctly.
- `-INT64_MIN` becomes the unsigned 2^63.

Division and remainder by zero, `INT64_MIN / -1` and shifts outside 0..63 are
preconditions of the word operations, and `Undefined` failures of the metamethods.

The libFLAC calls the converters make are modelled by what they do to the block:

- `FLAC__metadata_object_new` gives the default body and the initial length (`FlacMetadata.DefaultBody`, `FlacMetadata.InitialLength`).
- The resize functions keep a prefix and fill with defaults (`FlacMetadata.Resized`).
- The set functions replace one element.

The legality checks that `set_comment` and `set_vendor_string` make are parameters
(`MetadataRead.Library`), and so is the vendor string of a fresh block.

Two behaviours of the conversion worth noting:

- Blocks of unknown type: the binding refuses them on input with "unknown metadata type". On output it pushes the wrong bytes (see Findings).
- `luaflac_toflac_streammetadata` reads the PADDING block's length from the table's own `length` field (`csrc/luaflac_metadata.c:104`). Every other type keeps the length libFLAC gives it.

## Model

| member | source | states |
|---|---|---|
| MachineInt.Wrap64 | csrc/luaflac_int64.c:84-98 | conversion to FLAC__uint64 is reduction mod 2^64: the value itself in range, one 2^64 off just outside it |
| MachineInt.ToSigned | csrc/luaflac_int64.c:864-875 | a uint64 reinterpreted as int64 is the value below 2^63 and the value minus 2^64 above it |
| MachineInt.ToUnsigned | csrc/luaflac_int64.c:767-768 | an int64 reinterpreted as uint64 is undone by ToSigned |
| MachineInt.WrapS64 | csrc/luaflac_int64.c:382-400 | the two's-complement wrap of a result is exact in range and agrees with the unsigned wrap bit for bit |
| MachineInt.WrapS64Congruent | csrc/luaflac_int64.c:382-434 | two results wrap to the same int64 exactly when they agree mod 2^64 |
| MachineInt.WrapS32 | csrc/luaflac_metadata.c:98-102 | padding.dummy (a 32-bit int) is the value when it fits, and congruent to it mod 2^32 always |
| BitOps.AndOrXorSum | csrc/luaflac_int64.c:234-282 | a&b + a\|b == a + b and a^b == a\|b - a&b, for every width |
| BitOps.XorInvolution | csrc/luaflac_int64.c:268-282 | xor with the same operand twice gives the operand back |
| BitOps.AndTopBit | csrc/luaflac_int64.c:540-554 | the top bit of a&b is set iff it is set in both operands |
| BitOps.OrTopBit | csrc/luaflac_int64.c:557-571 | the top bit of a\|b is set iff it is set in either operand |
| BitOps.XorTopBit | csrc/luaflac_int64.c:574-588 | the top bit of a^b is set iff exactly one operand has it set |
| DecimalText.Decimal | csrc/luaflac_int64.c:11-21 | the digits of a value are canonical: at least one digit, no leading zero, one digit exactly below 10 |
| DecimalText.DecimalValue | csrc/luaflac_int64.c:11-21 | the digits written denote the value |
| DecimalText.CanonicalIsDecimal | csrc/luaflac_int64.c:11-21 | a canonical digit string is the decimal form of its value, so the form is unique |
| DecimalText.DecimalLength | csrc/luaflac_int64.c:11-21 | the decimal form fits in k digits iff the value is below 10^k |
| DecimalText.UInt64DecimalLength | csrc/luaflac_int64.c:11-21 | every uint64 has at most 20 digits (so the 21-byte buffer with its NUL suffices), and the largest have exactly 20 |
| DecimalText.SignedDecimal | csrc/luaflac_int64.c:23-41 | a negative value is '-' then the digits of its magnitude, one longer; a non-negative value is its unsigned form |
| Int64Text.UInt64ToStr | csrc/luaflac_int64.c:11-21 | the do-while loop writes the decimal form of the value ending just before the NUL at buffer[20], reports its length, and changes nothing else in the buffer |
| Int64Text.Int64ToStr | csrc/luaflac_int64.c:23-41 | writes '-' and the magnitude's digits (2^63 for INT64_MIN) ending just before the NUL at buffer[21] of the 22-byte buffer, and changes nothing else |
| Int64Text.UInt64ToString | csrc/luaflac_int64.c:334-344 | __tostring of a uint64 is its decimal form, 1 to 20 characters |
| Int64Text.Int64ToString | csrc/luaflac_int64.c:640-650 | __tostring of an int64 is its signed decimal form, 1 to 20 characters |
| UInt64Arith.Add | csrc/luaflac_int64.c:84-98 | the sum mod 2^64 |
| UInt64Arith.Sub | csrc/luaflac_int64.c:101-115 | the difference mod 2^64, undone by Add |
| UInt64Arith.Mul | csrc/luaflac_int64.c:118-132 | the exact product when it fits; in every case the result differs from the product by a multiple of 2^64 |
| UInt64Arith.Div | csrc/luaflac_int64.c:135-149 | the floor quotient for a non-zero divisor |
| UInt64Arith.Mod | csrc/luaflac_int64.c:152-166 | the remainder below the divisor that completes Div |
| UInt64Arith.BAnd | csrc/luaflac_int64.c:234-248 | a&b is at most both operands |
| UInt64Arith.BOr | csrc/luaflac_int64.c:251-265 | a\|b is at least both operands and a&b + a\|b == a + b |
| UInt64Arith.BXor | csrc/luaflac_int64.c:268-282 | a^b == a\|b - a&b |
| UInt64Arith.XorTwice | csrc/luaflac_int64.c:268-282 | (a^b)^b == a |
| UInt64Arith.BNot | csrc/luaflac_int64.c:285-298 | ~a == 2^64 - 1 - a |
| UInt64Arith.Shl | csrc/luaflac_int64.c:301-316 | `a << b` is a * 2^b whenever that fits in 64 bits; ShlThenShr states which bits survive otherwise |
| UInt64Arith.Shr | csrc/luaflac_int64.c:318-332 | `a >> b` is the floor of a / 2^b: r * 2^b <= a < (r + 1) * 2^b; ShrThenShl states which bits it clears |
| UInt64Arith.ShlThenShr | csrc/luaflac_int64.c:301-332 | shifting left then right by b keeps exactly the low 64 - b bits |
| UInt64Arith.ShrThenShl | csrc/luaflac_int64.c:301-332 | shifting right then left by b clears exactly the low b bits |
| UInt64Arith.Unm | csrc/luaflac_int64.c:66-81 | negation succeeds iff the operand is at most 2^63, giving the signed -a; otherwise "out of range" |
| UInt64Arith.Pow | csrc/luaflac_int64.c:169-195 | the square-and-multiply loop returns base^exp mod 2^64 (1 for exp 0) |
| Int64Arith.Add | csrc/luaflac_int64.c:382-400 | the exact sum when it fits; in all cases the unsigned sum's bits |
| Int64Arith.Sub | csrc/luaflac_int64.c:403-417 | the exact difference when it fits; the unsigned difference's bits; undone by Add |
| Int64Arith.Mul | csrc/luaflac_int64.c:420-434 | the exact product when it fits; the unsigned product's bits |
| Int64Arith.Div | csrc/luaflac_int64.c:437-451 | C's quotient, truncated toward zero: the remainder is smaller than the divisor and has the dividend's sign |
| Int64Arith.Mod | csrc/luaflac_int64.c:454-468 | C's remainder: completes Div, smaller than the divisor, with the dividend's sign |
| Int64Arith.BAnd | csrc/luaflac_int64.c:540-554 | negative iff both operands are; the unsigned and's bits |
| Int64Arith.BOr | csrc/luaflac_int64.c:557-571 | negative iff either operand is; the unsigned or's bits; a&b + a\|b == a + b |
| Int64Arith.BXor | csrc/luaflac_int64.c:574-588 | negative iff exactly one operand is; the unsigned xor's bits |
| Int64Arith.XorTwice | csrc/luaflac_int64.c:574-588 | (a^b)^b == a |
| Int64Arith.BNot | csrc/luaflac_int64.c:591-604 | ~a == -a - 1 |
| Int64Arith.Shl | csrc/luaflac_int64.c:607-621 | a * 2^b when that fits; the unsigned shift's bits |
| Int64Arith.Shr | csrc/luaflac_int64.c:624-638 | the floor division by 2^b for non-negative a; for negative a the logical shift of its unsigned bits |
| Int64Arith.Unm | csrc/luaflac_int64.c:361-379 | INT64_MIN negates to the uint64 2^63, every other value to the int64 -a |
| Int64Arith.NegationRoundTrip | csrc/luaflac_int64.c:66-81 | negating a uint64 up to 2^63 and then the result gives the value back (as int64 below 2^63, as uint64 at 2^63) |
| Int64Arith.Pow | csrc/luaflac_int64.c:471-501 | a negative exponent is refused with "exp must be positive" before the loop; otherwise base^exp wrapped to int64 |
| Int64Convert.UInt64Of | csrc/luaflac_int64.c:748-823 | nil is 0, booleans 0/1, integers are reinterpreted, a uint64 is itself, a negative int64 is "out of range", tables and other values are "invalid value" |
| Int64Convert.ToUInt64 | csrc/luaflac_int64.c:748-823 | the loop skipping whitespace and the strtoull call compute UInt64Of |
| Int64Convert.Int64Of | csrc/luaflac_int64.c:825-876 | nil is 0, booleans 0/1, an int64 is itself, a uint64 above INT64_MAX is "out of range", others "invalid value" |
| Int64Convert.UInt64TextRoundTrip | csrc/luaflac_int64.c:789-822 | parsing the formatter's output gives the value back |
| Int64Convert.UInt64OverflowRefused | csrc/luaflac_int64.c:812-816 | a numeral above 2^64 - 1 is refused with "invalid integer string" |
| Int64Convert.UInt64BlankRefused | csrc/luaflac_int64.c:795-807 | an empty or all-whitespace string is refused with "invalid string, <text> has no characters" |
| Int64Convert.UInt64NoDigitRefused | csrc/luaflac_int64.c:812-821 | a string whose first non-space character is not a sign or a digit converts nothing and is refused with "invalid string" |
| Int64Convert.UInt64NegativeRefused | csrc/luaflac_int64.c:808-810 | a string starting with '-' is refused, naming the string |
| Int64Convert.UInt64LeadingSpace | csrc/luaflac_int64.c:795-802 | leading whitespace changes neither success nor the value |
| Int64Convert.Int64TextRoundTrip | csrc/luaflac_int64.c:864-875 | parsing the signed formatter's output gives the value back, through strtoull's wrap |
| Int64Convert.Int64TextIsCast | csrc/luaflac_int64.c:864-875 | the string path of toint64 is an unsigned parse followed by a cast |
| Int64Meta.UInt64Metamethod | csrc/luaflac_int64.c:84-332 | converts both operands (the first operand's error wins), applies the operation and wraps the result as a uint64 |
| Int64Meta.Int64Metamethod | csrc/luaflac_int64.c:382-638 | the same for int64, with a negative exponent, division by zero and bad shifts as failures |
| Int64Meta.UInt64Eq | csrc/luaflac_int64.c:198-207 | `__eq` converts the left operand first and fails with its error, then the right; otherwise the two uint64 values are equal |
| Int64Meta.UInt64Lt | csrc/luaflac_int64.c:209-219 | `__lt`: the same failures in the same order; otherwise the left uint64 is below the right |
| Int64Meta.UInt64Le | csrc/luaflac_int64.c:221-231 | `__le`: the same failures in the same order; otherwise the left uint64 is at most the right |
| Int64Meta.Int64Eq | csrc/luaflac_int64.c:504-513 | `__eq` of int64: the left operand's toint64 failure first, then the right's; otherwise equality of the two values |
| Int64Meta.Int64Lt | csrc/luaflac_int64.c:515-525 | `__lt` of int64: the same failures; otherwise signed "less than" |
| Int64Meta.Int64Le | csrc/luaflac_int64.c:527-537 | `__le` of int64: the same failures; otherwise signed "at most" |
| Int64Meta.UInt64ComparisonsAgree | csrc/luaflac_int64.c:198-231 | __lt, __le and __eq of FLAC__uint64 accept the same operands; a <= b iff a < b or a == b; < is asymmetric |
| Int64Meta.Int64ComparisonsAgree | csrc/luaflac_int64.c:504-537 | the same for the comparisons of FLAC__int64 |
| Int64Meta.NegativeIntegerOperandWraps | csrc/luaflac_int64.c:198-219 | `__lt` and `__eq` called on a uint64 and -1 read -1 as 2^64 - 1: every uint64 but UINT64_MAX is below it (the `<` operator reaches `__lt`; the `==` operator never reaches `__eq` for a number operand) |
| Int64Meta.CrossTypeRange | csrc/luaflac_int64.c:757-781 | a uint64 above INT64_MAX in an int64 operation, and a negative int64 in a uint64 operation, is "out of range" |
| Int64Meta.NewUInt64 | csrc/luaflac_int64.c:44-63 | no argument gives 0; otherwise the argument converted by touint64, and a refused argument raises touint64's own error |
| Int64Meta.NewInt64 | csrc/luaflac_int64.c:667-685 | no argument gives 0; otherwise the argument converted by toint64, and a refused argument raises toint64's own error |
| Int64Meta.ConstructorsReadTostring | csrc/luaflac_int64.c:44-63 | both constructors read back what __tostring writes |
| CLib.CString | csrc/luaflac_metadata.c:685-686 | a C string is the prefix before the first NUL, and holds no NUL |
| CLib.ReadsNumeral | csrc/luaflac_int64.c:812-816 | strtoull of a digit string is its value, or ULLONG_MAX with ERANGE above it |
| Lua.GetField | csrc/luaflac_metadata.c:15-16 | lua_getfield on a table gives the field or nil; it fails on everything but tables and strings |
| Lua.Elements | csrc/luaflac_metadata.c:174-195 | the lua_rawgeti calls of a counting loop fetch elements 1..count of a table; on a non-table the first fetch is undefined |
| Lua.MapFromOrder | csrc/luaflac_metadata.c:181-195 | a successful element-by-element conversion keeps order and count: result k comes from element k + 1 |
| Lua.MapFromTotal | csrc/luaflac_metadata.c:181-195 | the conversion succeeds iff every element converts |
| Lua.MapFromFirstFailure | csrc/luaflac_metadata.c:242-259 | the conversion fails with the failure of the first element that does not convert |
| FlacMetadata.StreamMetadata.constructor | csrc/luaflac_metadata.c:504-507 | FLAC__metadata_object_new gives the type, is_last false, the default body and its encoded length |
| FlacMetadata.Resized | csrc/luaflac_metadata.c:175 | resizing keeps the first n elements and fills new ones with the default |
| MetadataRead.Md5Of | csrc/luaflac_metadata.c:70-79 | an absent md5sum keeps the default; a present one is stored iff it has exactly 16 bytes, verbatim |
| MetadataRead.FixedStringOf | csrc/luaflac_metadata.c:284-294 | a string copied into an n-byte array always gives n bytes |
| MetadataToFlac.ReadU32 | csrc/luaflac_metadata.c:22-68 | an absent field keeps the default; a present one is lua_tointeger truncated to 32 bits |
| MetadataToFlac.ToFlacStreamInfo | csrc/luaflac_metadata.c:9-85 | fails iff StreamInfoOf fails, with its message; on success the body is StreamInfoOf's; its frame lets it change the body only |
| MetadataToFlac.ToFlacPadding | csrc/luaflac_metadata.c:88-109 | fails iff PaddingOf fails; on success dummy and length are PaddingOf's |
| MetadataToFlac.ToFlacApplication | csrc/luaflac_metadata.c:112-150 | fails iff ApplicationOf fails; on success the id and data are ApplicationOf's and the length is 4 + the data length mod 2^32 |
| MetadataToFlac.ReadPoint | csrc/luaflac_metadata.c:182-188 | one seek point is PointOf of its element: touint64 of both 64-bit fields, luaL_checkinteger of frame_samples truncated to 32 bits, or the first failure |
| MetadataToFlac.ToFlacSeekTable | csrc/luaflac_metadata.c:153-200 | the resize-then-set loop leaves exactly the points SeekTableOf converts, or fails with its failure |
| MetadataToFlac.ToFlacVorbisComment | csrc/luaflac_metadata.c:202-264 | the vendor string and comments VorbisCommentOf gives, or its failure |
| MetadataToFlac.ReadComment | csrc/luaflac_metadata.c:243-257 | one comment entry is CommentOf of its element |
| MetadataToFlac.ReadComments | csrc/luaflac_metadata.c:234-259 | the comment loop leaves exactly the comments CommentsOf converts, or its failure |
| MetadataToFlac.NewTrack | csrc/luaflac_metadata.c:320-361 | a track's scalar fields are CueTrackHeadOf of its element |
| MetadataToFlac.ReadIndex | csrc/luaflac_metadata.c:379-395 | one index is CueIndexOf of its element |
| MetadataToFlac.ReadIndices | csrc/luaflac_metadata.c:366-400 | the index loop replaces track i's indices with IndicesOf and touches nothing else |
| MetadataToFlac.ToFlacCueSheet | csrc/luaflac_metadata.c:266-411 | the cue sheet CueSheetOf gives, or its failure |
| MetadataToFlac.ReadTrack | csrc/luaflac_metadata.c:319-404 | set_track then the index loop leave track i as CueTrackOf of its element |
| MetadataToFlac.ReadTracks | csrc/luaflac_metadata.c:309-406 | the track loop leaves exactly the tracks TracksOf converts, or its failure |
| MetadataToFlac.ToFlacPicture | csrc/luaflac_metadata.c:413-492 | the picture PictureOf gives, or its failure |
| MetadataToFlac.FillBody | csrc/luaflac_metadata.c:517-564 | the switch on the block type fails iff BodyOf fails, with its failure; on success the block is BodyOf's; an unlisted type is refused as unknown |
| MetadataToFlac.ToFlac | csrc/luaflac_metadata.c:494-576 | succeeds iff ToFlacSpec does, with its failure otherwise; on success a fresh block whose value is ToFlacSpec's |
| MetadataPush.ListOf | csrc/luaflac_metadata.c:641-653 | the list built by a rawseti(++i) loop has as many elements as its source, element k + 1 made from item k |
| MetadataPush.PushSpec | csrc/luaflac_metadata.c:769-818 | every pushed table carries type, is_last and length as the block holds them |
| MetadataPush.PushSeekTable | csrc/luaflac_metadata.c:633-656 | the loop builds num_points and the list of point tables, in order |
| MetadataPush.PushVorbisComment | csrc/luaflac_metadata.c:658-681 | the loop builds the vendor string, num_comments and comment i + 1 from comment i |
| MetadataPush.PushTrack | csrc/luaflac_metadata.c:701-735 | a track table with its index list built by the inner loop, in order |
| MetadataPush.PushCueSheet | csrc/luaflac_metadata.c:683-737 | the cue sheet table with the track list built by the outer loop, in order |
| MetadataPush.PushStreamMetadata | csrc/luaflac_metadata.c:769-818 | dispatching on the block's type builds PushSpec of the block |
| MetadataRoundTrip.ZeroPaddedRebuilt | csrc/luaflac_metadata.c:284-294 | copying a zero-padded array's C string back rebuilds the array |
| MetadataRoundTrip.CStringOfNoNul | csrc/luaflac_metadata.c:744-745 | lua_pushstring of a string without NUL pushes all of it |
| MetadataRoundTrip.PointBack | csrc/luaflac_metadata.c:643-653 | a pushed seek point converts back to itself |
| MetadataRoundTrip.IndexBack | csrc/luaflac_metadata.c:722-730 | a pushed index converts back to itself |
| MetadataRoundTrip.IndicesBack | csrc/luaflac_metadata.c:720-732 | a pushed index list converts back to the indices |
| MetadataRoundTrip.TrackBack | csrc/luaflac_metadata.c:699-735 | a pushed track with a zero-padded isrc converts back to itself |
| MetadataRoundTrip.StreamInfoBack | csrc/luaflac_metadata.c:580-611 | pushed STREAMINFO converts back to itself |
| MetadataRoundTrip.PaddingBack | csrc/luaflac_metadata.c:613-619 | pushed PADDING converts back to its dummy and its length |
| MetadataRoundTrip.ApplicationBack | csrc/luaflac_metadata.c:112-150 | the corrected APPLICATION table converts back to its id and data |
| MetadataRoundTrip.SeekTableBack | csrc/luaflac_metadata.c:633-656 | a pushed seek table converts back to the same points in the same order |
| MetadataRoundTrip.VorbisCommentBack | csrc/luaflac_metadata.c:658-681 | pushed comments convert back in order, and the vendor string with its exact length, when libFLAC accepts them |
| MetadataRoundTrip.TracksBack | csrc/luaflac_metadata.c:699-735 | a pushed track list converts back to the tracks |
| MetadataRoundTrip.CueSheetBack | csrc/luaflac_metadata.c:683-737 | a pushed cue sheet with zero-padded strings converts back, lead_in through its signed push included |
| MetadataRoundTrip.PictureBack | csrc/luaflac_metadata.c:739-761 | a pushed picture converts back except for its description, which is not pushed |
| MetadataRoundTrip.PushThenToFlac | csrc/luaflac_metadata.c:769-818 | converting the table PushSpec builds for any block of a known type gives the block back (APPLICATION is emitted by the corrected emitter, not the over-reading one at csrc/luaflac_metadata.c:627): only the picture description, and the length of types libFLAC recomputes, differ |
| MetadataRoundTrip.StreamInfoThenBack | csrc/luaflac_metadata.c:580-611 | the STREAMINFO case of the round trip |
| MetadataRoundTrip.PaddingThenBack | csrc/luaflac_metadata.c:613-619 | the PADDING case of the round trip, length included |
| MetadataRoundTrip.ApplicationThenBack | csrc/luaflac_metadata.c:621-631 | the APPLICATION case of the round trip, length included, with the corrected emitter |
| MetadataRoundTrip.SeekTableThenBack | csrc/luaflac_metadata.c:633-656 | the SEEKTABLE case of the round trip |
| MetadataRoundTrip.VorbisCommentThenBack | csrc/luaflac_metadata.c:658-681 | the VORBIS_COMMENT case of the round trip |
| MetadataRoundTrip.CueSheetThenBack | csrc/luaflac_metadata.c:683-737 | the CUESHEET case of the round trip |
| MetadataRoundTrip.PictureThenBack | csrc/luaflac_metadata.c:739-761 | the PICTURE case of the round trip |
| MetadataRoundTrip.UnknownKindNotConverted | csrc/luaflac_metadata.c:560-571 | a pushed block of an unknown type is refused with "unknown metadata type" |
| MetadataRules.MissingBodyRefused | csrc/luaflac_metadata.c:15-20 | a block table without the sub-table of its type fails with "missing key: <name>" (likewise lines 91-96, 120-125, 160-165, 211-216, 277-282, 419-424) |
| MetadataRules.MissingPointsRefused | csrc/luaflac_metadata.c:167-172 | a seek table without a points table fails with "missing key: points" |
| MetadataRules.UnknownTypesRefused | csrc/luaflac_metadata.c:503-571 | types 7..126 fail with "unknown metadata type", larger ones with "memory error" |
| MetadataRules.AbsentFieldsKeepDefaults | csrc/luaflac_metadata.c:22-68 | a table without type whose stream_info is empty is a default STREAMINFO block |
| MetadataRules.AbsentIndexFieldsAreZero | csrc/luaflac_metadata.c:381-395 | an index without offset and number gets 0 for both |
| MetadataRules.Md5Rule | csrc/luaflac_metadata.c:70-79 | a present md5sum of other than 16 bytes fails with "incorrect md5sum length"; one of 16 bytes is stored verbatim |
| MetadataRules.ApplicationIdRule | csrc/luaflac_metadata.c:127-146 | an id shorter than 4 bytes fails with "incorrect id length"; otherwise exactly its first 4 bytes are the id |
| MetadataRules.SeekTableOrder | csrc/luaflac_metadata.c:174-195 | num_points is the points list's length (mod 2^32), and point k comes from element k + 1 |
| MetadataRules.CommentsOrder | csrc/luaflac_metadata.c:234-259 | the number of comments is the list's length (mod 2^32), and comment k comes from element k + 1 |
| MetadataRules.FixedStringRule | csrc/luaflac_metadata.c:284-294 | more than n - 1 bytes fail; otherwise the bytes, a NUL, and the rest of the array unchanged |
| MetadataRules.CatalogTooLongRefused | csrc/luaflac_metadata.c:284-294 | a media_catalog_number over 128 bytes fails with "media_catalog_number: length > 128" |
| MetadataRules.IsrcTooLongRefused | csrc/luaflac_metadata.c:334-345 | an isrc over 12 bytes fails with "incorrect isrc length" whenever the track's offset is absent or converts |
| MetadataRules.IndexCountWraps | csrc/luaflac_metadata.c:366-378 | num_indices is a byte, so a list of 256 indices is read as none |
| MetadataRules.CommentsBounded | csrc/luaflac_metadata.c:234-259 | converted comments fit the 32-bit count and lengths |
| MetadataRules.TrackValid | csrc/luaflac_metadata.c:319-404 | a converted track has a 13-byte isrc and fewer than 256 indices |
| MetadataRules.TracksValid | csrc/luaflac_metadata.c:309-406 | every converted track is valid and their number fits 32 bits |
| MetadataRules.ConvertedIsValid | csrc/luaflac_metadata.c:494-576 | every block the conversion builds is of a known type with fixed arrays of their size and counts within their fields |
| MetadataFindings.ApplicationTableAsWritten | csrc/luaflac_metadata.c:621-631 | the emitter as written is defined iff the block's length is at most the data's size |
| MetadataFindings.ApplicationEmitterOverReads | csrc/luaflac_metadata.c:627 | for every counted APPLICATION block the emitter as written reads past the data |
| MetadataFindings.ApplicationOverReadExample | csrc/luaflac_metadata.c:112-150 | the block converted from {type=2, application={id="abcd", data="xy"}} has length 6 and 2 data bytes, so the emitter as written over-reads |
| MetadataFindings.ApplicationCorrected | csrc/luaflac_metadata.c:621-631 | the corrected emitter pushes exactly the data's bytes |
| MetadataFindings.UnknownDataAsWritten | csrc/luaflac_metadata.c:763-767 | the unknown-type emitter as written pushes the first `length` bytes of the union's own representation, and is undefined only when `length` runs past the union |
| MetadataFindings.UnknownEmitterLosesData | csrc/luaflac_metadata.c:763-767 | unless the union's bytes begin with the block's own bytes, the emitter as written does not push the block's data, while the corrected emitter pushes the raw bytes |

## Left out

- Floats and the coercion of numeric strings in `lua_tointeger` and `luaL_checkinteger` are left out. A Lua value is an integer, a string, a boolean, nil, a table, one of the two userdata types, or "other".
- Lua stack discipline, the `assert`s on stack height, and the position prefix `luaL_error` adds to messages are left out. The Lua library's own argument errors are summarised by short messages.
- Allocation failures are left out: "memory error" when `FLAC__metadata_object_new` fails for a valid type, "error setting application data", "error resizing points", "error resizing comments", "error resizing tracks", "error setting track", "error resizing track indexes", "error setting mime_type", "error setting description", "error setting data", and "out of memory" when a userdata is allocated. "memory error" for a type above 126 is modelled. The libFLAC legality check of a comment entry and of the vendor string is a parameter (`MetadataRead.Library`), so those two errors are modelled.
- The release of the block on a Lua error (`FLAC__metadata_object_delete`) is left out, and so is the leak when an error raised inside a converter unwinds past it. Memory is not modelled.
- libFLAC's recomputation of `length` after set and resize calls on SEEKTABLE, VORBIS_COMMENT, CUESHEET and PICTURE blocks is left out. The model keeps the length of a fresh block for those types, which is why `MetadataRoundTrip.ReadBack` compares their lengths with `InitialLength`.
- `MetadataRoundTrip.PushThenToFlac`: proved only for canonical blocks. In those, fixed-size C string arrays are zero after their terminator, and libFLAC accepts the comments. A pushed array loses the bytes after its first NUL. It is also proved only for the table PushSpec builds, whose APPLICATION data comes from the corrected emitter; the program's own APPLICATION emitter reads past the data (see Findings), so the table it pushes is not covered.
- `luaflac_pushuint64` and `luaflac_pushint64` are modelled as the values `UInt64(u)` and `Int64(v)`. Their metatables, `__tostring` and `__concat` stack handling, and `register_metatables` and the `luaopen_*` functions are Lua glue.
- `MetadataRead.Library`: `FLAC__metadata_object_vorbiscomment_entry_is_legal`, `..._value_is_legal` and libFLAC's vendor string are parameters, because libFLAC is not part of this model.
- The FLAC codec, the stream encoder and decoder bindings, and the constant tables are not part of this model.

## Findings

| source | as written | input that shows it | evidently intended | confidence | as-written member | corrected member |
|---|---|---|---|---|---|---|
| csrc/luaflac_metadata.c:627 | pushes `m->length` bytes from `application.data`, but libFLAC sets the length to 4 + the data's size | the table {type=2, application={id="abcd", data="xy"}} converts to a block of length 6 holding 2 data bytes; pushing it reads 4 bytes past the data | push the data's own bytes: `m->length - 4` of them | not executed | MetadataFindings.ApplicationEmitterOverReads | MetadataRoundTrip.ApplicationThenBack |
| csrc/luaflac_metadata.c:765 | pushes `m->length` bytes starting at `&m->data`, the union itself, whose first member is the pointer to the block's bytes | any block of a type above PICTURE with a non-empty body, e.g. type 7 with 5 bytes: the pushed `data` is the pointer's representation, not the 5 bytes | push `m->data.unknown.data`, `m->length` bytes | not executed | MetadataFindings.UnknownEmitterLosesData | MetadataPush.PushStreamMetadata |
