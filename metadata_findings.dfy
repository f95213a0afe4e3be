/** Two emitters of luaflac_pushstreammetadata as they are written, next to the
    corrected ones MetadataPush uses. */
module MetadataFindings {
  import opened MachineInt
  import opened Lua
  import opened FlacMetadata
  import opened MetadataRead
  import opened MetadataPush

  /** The APPLICATION emitter as written: it pushes `length` bytes starting at
      application.data, but the block's length counts the 4 id bytes too, so the read
      runs past the data whenever the length exceeds the data's size. */
  function ApplicationTableAsWritten(id: seq<char>, data: seq<char>, length: u32): (r: Result<Value>)
    ensures r.Ok? <==> length <= |data|
    ensures r.Ok? ==> r.value == ApplicationTable(id, data[..length])
  {
    if length <= |data| then Ok(ApplicationTable(id, data[..length]))
    else Err(Undefined("lua_pushlstring reads past the end of application.data"))
  }

  /** Every APPLICATION block whose length libFLAC has counted (and that is not within 4
      bytes of the 32-bit limit) makes the emitter as written read out of bounds. */
  lemma ApplicationEmitterOverReads(r: Record)
    requires ValidRecord(r) && r.data.ApplicationBody? && |r.data.appData| + 4 < TWO_32
    ensures ApplicationTableAsWritten(r.data.id, r.data.appData, r.length).Err?
  {
  }

  /** The table {type = 2, application = {id = "abcd", data = "xy"}} converts into a block
      the emitter as written cannot push. */
  lemma ApplicationOverReadExample(lib: Library)
    ensures var block := Table(map["type" := Integer(2),
                                   "application" := Table(map["id" := Str("abcd"), "data" := Str("xy")], [])], []);
      ToFlacSpec(block, lib) == Ok(Record(APPLICATION, false, 6, ApplicationBody("abcd", "xy"))) &&
      ApplicationTableAsWritten("abcd", "xy", 6).Err?
  {
    var block := Table(map["type" := Integer(2),
                           "application" := Table(map["id" := Str("abcd"), "data" := Str("xy")], [])], []);
    assert KindOf(block) == APPLICATION;
    assert "abcd"[..4] == "abcd";
    assert ApplicationOf(block) == Ok(("abcd", "xy"));
  }

  /** The corrected emitter pushes exactly the data's own bytes: what the one as written
      does when given the data length rather than the block length. */
  lemma ApplicationCorrected(r: Record)
    requires ValidRecord(r) && r.data.ApplicationBody?
    ensures ApplicationTableAsWritten(r.data.id, r.data.appData, |r.data.appData|) ==
            Ok(ApplicationTable(r.data.id, r.data.appData))
    ensures PushSpec(r).fields["application"] == ApplicationTable(r.data.id, r.data.appData)
  {
    assert r.data.appData[..|r.data.appData|] == r.data.appData;
  }

  /** The emitter for types libFLAC does not interpret, as written: it pushes `length`
      bytes read from the data union itself. `image` is the union's object
      representation, whose first member is the pointer to the block's bytes; reading
      past its end is undefined. */
  function UnknownDataAsWritten(length: u32, image: seq<char>): (r: Result<Value>)
    ensures r.Ok? <==> length as int <= |image|
    ensures r.Ok? ==> r.value == Str(image[..length])
  {
    if length as int <= |image| then Ok(Str(image[..length]))
    else Err(Undefined("lua_pushlstring reads past the data union"))
  }

  /** Unless the union's bytes happen to begin with the block's bytes, the emitter as
      written does not push the block's data, while the corrected emitter does. */
  lemma UnknownEmitterLosesData(r: Record, image: seq<char>)
    requires ValidRecord(r) && r.data.UnknownBody?
    requires !(|r.data.raw| <= |image| && image[..|r.data.raw|] == r.data.raw)
    ensures UnknownDataAsWritten(r.length, image) != Ok(Str(r.data.raw))
    ensures "data" in PushSpec(r).fields && PushSpec(r).fields["data"] == Str(r.data.raw)
  {
    var body := BodyFields(r);
    assert body == map["data" := Str(r.data.raw)];
    assert "data" !in Header(r) by {
      assert "data"[0] == 'd';
    }
  }
}
