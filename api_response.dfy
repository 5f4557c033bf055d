/**
 * The `isValidApiResponse` type guard from the TypeScript introduction: the
 * runtime check that an untyped value really has a string `name` and a
 * numeric `age`.
 */
module ApiResponse {
  import opened Wrappers
  import opened Json

  /**
   * `typeof data === 'object' && data !== null && 'name' in data && 'age' in data
   *  && typeof data.name === 'string' && typeof data.age === 'number'`.
   * An array is an object to `typeof` but has neither key.
   */
  predicate IsValidApiResponse(data: Json) {
    && (data.JObj? || data.JArr?)
    && data != JNull
    && Lookup(data, "name").Some?
    && Lookup(data, "age").Some?
    && Lookup(data, "name").value.JStr?
    && Lookup(data, "age").value.JNum?
  }

  /** The guard accepts exactly the objects whose `name` is a string and `age` a number. */
  lemma GuardCharacterized(data: Json)
    ensures IsValidApiResponse(data) <==>
              exists name, age :: Lookup(data, "name") == Some(JStr(name)) && Lookup(data, "age") == Some(JNum(age))
  {
    if IsValidApiResponse(data) {
      var name, age := Lookup(data, "name").value.s, Lookup(data, "age").value.n;
      assert Lookup(data, "name") == Some(JStr(name)) && Lookup(data, "age") == Some(JNum(age));
    }
  }

  /** Properties other than `name` and `age` are not inspected. */
  lemma OtherKeysIgnored(fields: map<string, Json>, k: string, v: Json)
    requires k != "name" && k != "age"
    ensures IsValidApiResponse(JObj(fields[k := v])) == IsValidApiResponse(JObj(fields))
  {
    assert Lookup(JObj(fields[k := v]), "name") == Lookup(JObj(fields), "name");
    assert Lookup(JObj(fields[k := v]), "age") == Lookup(JObj(fields), "age");
  }

  /** `apiData` is rejected and `safeData` is accepted. */
  lemma Examples()
    ensures !IsValidApiResponse(JObj(map["name" := JNull, "age" := JStr("30")]))
    ensures IsValidApiResponse(JObj(map["name" := JStr("John"), "age" := JNum(30)]))
  {
  }
}
