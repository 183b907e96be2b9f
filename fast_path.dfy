/**
 * `buildConfig`: the fast path that reads the annotation proxy's member array
 * by index and dispatches each non-null value on the ordinal at that index.
 */
module FastPath {
  import opened Wrappers
  import opened Annotations
  import opened ConfigNames
  import opened FieldConfigs

  /**
   * The record after the first `n` rounds of `buildConfig`'s loop: round `i`
   * reads member `i` (an ArrayIndexOutOfBoundsException past the end of the
   * member array) and, when its value is not null, assigns it through ordinal
   * `configFieldNums[i]`. The first exception ends the loop.
   */
  function ApplyMembers(seed: Record, configFieldNums: seq<int>, objs: seq<Member>, n: nat,
                        field: FieldDecl, matchEnum: EnumMatcher): (r: Result<Record, Exception>)
    requires n <= |configFieldNums| && |seed.attrs| == 27
    ensures r.Success? ==> r.value.fieldName == seed.fieldName && |r.value.attrs| == 27
    decreases n
  {
    if n == 0 then Success(seed)
    else
      var config :- ApplyMembers(seed, configFieldNums, objs, n - 1, field, matchEnum);
      if n - 1 >= |objs| then Failure(ArrayIndexOutOfBoundsException(n - 1))
      else match objs[n - 1].value
        case None => Success(config)
        case Some(value) => Assign(config, configFieldNums[n - 1], field, value, matchEnum)
  }

  /** Once a round raises, every later round count gives the same exception. */
  lemma {:induction false} ApplyFailureSticks(seed: Record, configFieldNums: seq<int>, objs: seq<Member>, i: nat, n: nat,
                                              field: FieldDecl, matchEnum: EnumMatcher)
    requires i <= n <= |configFieldNums| && |seed.attrs| == 27
    requires ApplyMembers(seed, configFieldNums, objs, i, field, matchEnum).Failure?
    ensures ApplyMembers(seed, configFieldNums, objs, n, field, matchEnum) == ApplyMembers(seed, configFieldNums, objs, i, field, matchEnum)
    decreases n
  {
    if n > i {
      ApplyFailureSticks(seed, configFieldNums, objs, i, n - 1, field, matchEnum);
    }
  }

  /** An ordinal array longer than the member array always ends in an exception. */
  lemma ApplyTooFewMembers(seed: Record, configFieldNums: seq<int>, objs: seq<Member>, field: FieldDecl, matchEnum: EnumMatcher)
    requires |objs| < |configFieldNums| && |seed.attrs| == 27
    ensures ApplyMembers(seed, configFieldNums, objs, |configFieldNums|, field, matchEnum).Failure?
  {
    ApplyFailureSticks(seed, configFieldNums, objs, |objs| + 1, |configFieldNums|, field, matchEnum);
  }

  /** With every member value null, the seed record comes back unchanged. */
  lemma {:induction false} ApplyAllNull(seed: Record, configFieldNums: seq<int>, objs: seq<Member>, n: nat,
                                        field: FieldDecl, matchEnum: EnumMatcher)
    requires n <= |configFieldNums| && n <= |objs| && |seed.attrs| == 27
    requires forall j :: 0 <= j < n ==> objs[j].value.None?
    ensures ApplyMembers(seed, configFieldNums, objs, n, field, matchEnum) == Success(seed)
    decreases n
  {
    if n > 0 {
      ApplyAllNull(seed, configFieldNums, objs, n - 1, field, matchEnum);
    }
  }

  /**
   * An attribute that no round from `i` on assigns (no non-null member whose
   * ordinal denotes it) keeps the value it had after round `i`.
   */
  lemma {:induction false} ApplyUntouched(seed: Record, configFieldNums: seq<int>, objs: seq<Member>, i: nat, n: nat, k: int,
                                          field: FieldDecl, matchEnum: EnumMatcher)
    requires i <= n <= |configFieldNums| && |seed.attrs| == 27 && IsOrdinal(k)
    requires ApplyMembers(seed, configFieldNums, objs, n, field, matchEnum).Success?
    requires forall j :: i <= j < n && j < |objs| && objs[j].value.Some? ==> configFieldNums[j] != k
    ensures ApplyMembers(seed, configFieldNums, objs, i, field, matchEnum).Success?
    ensures ApplyMembers(seed, configFieldNums, objs, n, field, matchEnum).value.attrs[k - 1] ==
            ApplyMembers(seed, configFieldNums, objs, i, field, matchEnum).value.attrs[k - 1]
    decreases n
  {
    if n > i {
      ApplyUntouched(seed, configFieldNums, objs, i, n - 1, k, field, matchEnum);
    }
  }

  /**
   * The last non-null member whose ordinal is `k` decides attribute `k`: the
   * result holds what assigning that member's value produced.
   */
  lemma ApplyLastWriteWins(seed: Record, configFieldNums: seq<int>, objs: seq<Member>, i: nat, n: nat,
                           field: FieldDecl, matchEnum: EnumMatcher)
    requires i < n <= |configFieldNums| && i < |objs| && |seed.attrs| == 27
    requires objs[i].value.Some? && IsOrdinal(configFieldNums[i])
    requires ApplyMembers(seed, configFieldNums, objs, n, field, matchEnum).Success?
    requires forall j :: i < j < n && j < |objs| && objs[j].value.Some? ==> configFieldNums[j] != configFieldNums[i]
    ensures ApplyMembers(seed, configFieldNums, objs, i, field, matchEnum).Success?
    ensures Assign(ApplyMembers(seed, configFieldNums, objs, i, field, matchEnum).value, configFieldNums[i], field,
                   objs[i].value.value, matchEnum).Success?
    ensures ApplyMembers(seed, configFieldNums, objs, n, field, matchEnum).value.attrs[configFieldNums[i] - 1] ==
            Assign(ApplyMembers(seed, configFieldNums, objs, i, field, matchEnum).value, configFieldNums[i], field,
                   objs[i].value.value, matchEnum).value.attrs[configFieldNums[i] - 1]
  {
    ApplyUntouched(seed, configFieldNums, objs, i + 1, n, configFieldNums[i], field, matchEnum);
  }

  /**
   * What `buildConfig` returns: null when the handler is not an
   * `AnnotationFactory` or its member array is null, otherwise the record
   * named after the field with the member values applied.
   */
  function FastConfig(annotation: AnnotationProxy, field: FieldDecl, configFieldNums: seq<int>, matchEnum: EnumMatcher)
    : (r: Result<Option<Record>, Exception>)
    ensures r.Success? && r.value.Some? ==> r.value.value.fieldName == field.name
  {
    if !annotation.handlerIsFactory then Success(None)
    else if annotation.elements.None? then Success(None)
    else
      var config :- ApplyMembers(Blank(field.name), configFieldNums, annotation.elements.value, |configFieldNums|, field, matchEnum);
      Success(Some(config))
  }

  /**
   * `buildConfig`: fills a fresh record named after the field, member by
   * member, in step with the ordinal array.
   */
  method BuildConfig(annotation: AnnotationProxy, field: FieldDecl, configFieldNums: seq<int>, matchEnum: EnumMatcher)
    returns (r: Result<Option<FieldConfig>, Exception>)
    ensures r.Success? && r.value.Some? ==> fresh(r.value.value)
    ensures !annotation.handlerIsFactory || annotation.elements.None? ==> r == Success(None)
    ensures annotation.handlerIsFactory && annotation.elements.Some? && |annotation.elements.value| < |configFieldNums| ==> r.Failure?
    ensures match FastConfig(annotation, field, configFieldNums, matchEnum)
      case Failure(e) => r == Failure(e)
      case Success(None) => r == Success(None)
      case Success(Some(c)) => r.Success? && r.value.Some? && r.value.value.Snapshot() == c
  {
    if !annotation.handlerIsFactory {
      return Success(None);
    }
    if annotation.elements.None? {
      return Success(None);
    }
    var config := new FieldConfig(field.name);
    var objs := annotation.elements.value;
    ghost var seed := Blank(field.name);
    for i := 0 to |configFieldNums|
      invariant fresh(config)
      invariant ApplyMembers(seed, configFieldNums, objs, i, field, matchEnum) == Success(config.Snapshot())
    {
      if i >= |objs| {
        ApplyFailureSticks(seed, configFieldNums, objs, i + 1, |configFieldNums|, field, matchEnum);
        return Failure(ArrayIndexOutOfBoundsException(i));
      }
      var value := objs[i].value;
      if value.Some? {
        var outcome := AssignConfigField(configFieldNums[i], config, field, value.value, matchEnum);
        if outcome.Failure? {
          ApplyFailureSticks(seed, configFieldNums, objs, i + 1, |configFieldNums|, field, matchEnum);
          return Failure(outcome.error);
        }
      }
    }
    return Success(Some(config));
  }
}
