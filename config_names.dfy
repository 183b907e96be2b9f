/**
 * The closed table from `@DatabaseField` parameter names to ordinals, and the
 * discovery loop that translates the member names of the sample annotation
 * into the ordinal array the fast path dispatches on.
 */
module ConfigNames {
  import opened Wrappers
  import opened Annotations

  /** The 27 recognised parameter names; name `Names[k - 1]` has ordinal `k`. */
  const Names: seq<string> := [
    "columnName", "dataType", "defaultValue", "width", "canBeNull",
    "id", "generatedId", "generatedIdSequence", "foreign", "useGetSet",
    "unknownEnumName", "throwIfNull", "persisted", "format", "unique",
    "uniqueCombo", "index", "uniqueIndex", "indexName", "uniqueIndexName",
    "foreignAutoRefresh", "maxForeignAutoRefreshLevel", "persisterClass", "allowGeneratedIdInsert", "columnDefinition",
    "foreignAutoCreate", "version"]

  predicate IsOrdinal(k: int) {
    1 <= k <= 27
  }

  /** The name is one of the 27 table entries. */
  predicate Recognised(name: string) {
    exists i :: 0 <= i < |Names| && Names[i] == name
  }

  /** `configFieldNameToNum`: the ordinal of a recognised name, an IllegalStateException otherwise. */
  function ConfigFieldNameToNum(configName: string): (r: Result<int, Exception>)
    ensures r.Success? ==> IsOrdinal(r.value) && Names[r.value - 1] == configName
    ensures r.Failure? ==> !Recognised(configName)
    ensures r.Failure? ==> r.error == UnknownConfigName(configName)
  {
    if configName == "columnName" then Success(1)
    else if configName == "dataType" then Success(2)
    else if configName == "defaultValue" then Success(3)
    else if configName == "width" then Success(4)
    else if configName == "canBeNull" then Success(5)
    else if configName == "id" then Success(6)
    else if configName == "generatedId" then Success(7)
    else if configName == "generatedIdSequence" then Success(8)
    else if configName == "foreign" then Success(9)
    else if configName == "useGetSet" then Success(10)
    else if configName == "unknownEnumName" then Success(11)
    else if configName == "throwIfNull" then Success(12)
    else if configName == "persisted" then Success(13)
    else if configName == "format" then Success(14)
    else if configName == "unique" then Success(15)
    else if configName == "uniqueCombo" then Success(16)
    else if configName == "index" then Success(17)
    else if configName == "uniqueIndex" then Success(18)
    else if configName == "indexName" then Success(19)
    else if configName == "uniqueIndexName" then Success(20)
    else if configName == "foreignAutoRefresh" then Success(21)
    else if configName == "maxForeignAutoRefreshLevel" then Success(22)
    else if configName == "persisterClass" then Success(23)
    else if configName == "allowGeneratedIdInsert" then Success(24)
    else if configName == "columnDefinition" then Success(25)
    else if configName == "foreignAutoCreate" then Success(26)
    else if configName == "version" then Success(27)
    else Failure(UnknownConfigName(configName))
  }

  /** Ordinal `k` is what the table gives for the `k`-th name. */
  lemma NameOrdinal(k: int)
    requires IsOrdinal(k)
    ensures ConfigFieldNameToNum(Names[k - 1]) == Success(k)
  {
  }

  /** Every ordinal 1..27 is the ordinal of some name: the table has no gaps. */
  lemma NameTableComplete()
    ensures |Names| == 27
    ensures forall k :: IsOrdinal(k) ==> ConfigFieldNameToNum(Names[k - 1]) == Success(k)
  {
    forall k | IsOrdinal(k)
      ensures ConfigFieldNameToNum(Names[k - 1]) == Success(k)
    {
      NameOrdinal(k);
    }
  }

  /** No two table entries share a name, so no two names share an ordinal. */
  lemma NamesDistinct(i: int, j: int)
    requires 0 <= i < j < |Names|
    ensures Names[i] != Names[j]
  {
    NameOrdinal(i + 1);
    NameOrdinal(j + 1);
  }

  /** Exactly the recognised names are accepted. */
  lemma ConfigFieldNameToNumAccepts(configName: string)
    ensures ConfigFieldNameToNum(configName).Success? <==> Recognised(configName)
  {
    var r := ConfigFieldNameToNum(configName);
    if r.Success? {
      assert Names[r.value - 1] == configName;
    }
  }

  /** Two names with the same ordinal are the same name. */
  lemma ConfigFieldNameToNumInjective(a: string, b: string)
    requires ConfigFieldNameToNum(a).Success? && ConfigFieldNameToNum(a) == ConfigFieldNameToNum(b)
    ensures a == b
  {
  }

  /**
   * The mapping loop of `lookupClasses`, as a fold over the member names:
   * the ordinal of every name, or the error of the first unknown one.
   */
  function OrdinalsOf(names: seq<string>): (r: Result<seq<int>, Exception>)
    ensures r.Success? ==> |r.value| == |names|
    ensures r.Success? ==> forall i :: 0 <= i < |names| ==> IsOrdinal(r.value[i]) && Names[r.value[i] - 1] == names[i]
    ensures r.Failure? ==> exists i :: 0 <= i < |names| && !Recognised(names[i]) && r.error == UnknownConfigName(names[i])
    decreases |names|
  {
    if names == [] then Success([])
    else
      var init :- OrdinalsOf(names[..|names| - 1]);
      var num :- ConfigFieldNameToNum(names[|names| - 1]);
      Success(init + [num])
  }

  /** Once a prefix of the names fails, the whole sequence fails with the same error. */
  lemma {:induction false} OrdinalsOfFailureExtends(names: seq<string>, n: nat)
    requires n <= |names| && OrdinalsOf(names[..n]).Failure?
    ensures OrdinalsOf(names) == OrdinalsOf(names[..n])
    decreases |names| - n
  {
    if n < |names| {
      assert names[..n + 1][..n] == names[..n];
      OrdinalsOfFailureExtends(names, n + 1);
    } else {
      assert names[..n] == names;
    }
  }

  /**
   * `lookupClasses`, lines building `configNums`: a fresh array with one
   * ordinal per member name, in the members' order.
   */
  method LookupClasses(elementNames: seq<string>) returns (r: Result<array<int>, Exception>)
    ensures r.Success? ==> fresh(r.value)
    ensures r.Success? <==> OrdinalsOf(elementNames).Success?
    ensures r.Success? ==> r.value[..] == OrdinalsOf(elementNames).value
    ensures r.Failure? ==> r.error == OrdinalsOf(elementNames).error
  {
    var configNums := new int[|elementNames|];
    for i := 0 to |elementNames|
      invariant OrdinalsOf(elementNames[..i]) == Success(configNums[..i])
    {
      assert elementNames[..i + 1][..i] == elementNames[..i];
      var num := ConfigFieldNameToNum(elementNames[i]);
      if num.Failure? {
        OrdinalsOfFailureExtends(elementNames, i + 1);
        return Failure(num.error);
      }
      configNums[i] := num.value;
      assert configNums[..i + 1] == configNums[..i] + [num.value];
    }
    assert elementNames[..|elementNames|] == elementNames;
    return Success(configNums);
  }
}
