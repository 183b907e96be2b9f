/**
 * `configFromField` and `fromClass`: choosing between the fast path and the
 * normal `DatabaseFieldConfig.fromField` configuration for each field, and
 * collecting the persisted field configurations of a class hierarchy.
 */
module Resolver {
  import opened Wrappers
  import opened Annotations
  import opened FieldConfigs
  import opened FastPath

  /**
   * The collaborators outside this model: the normal, annotation-method based
   * `DatabaseFieldConfig.fromField` (null when the field has no
   * `@DatabaseField`, or an SQLException), and `findMatchingEnumVal`.
   */
  datatype Env = Env(slowPath: FieldDecl -> Result<Option<Record>, Exception>, matchEnum: EnumMatcher)

  /** The configuration `configFromField` returns and whether the fast path produced it. */
  datatype FieldOutcome = FieldOutcome(config: Option<Record>, fast: bool)

  /**
   * `configFromField`. Without an ordinal array the normal path decides; a
   * field without the annotation has no configuration; otherwise the fast
   * path's record is taken when there is one, and any exception it raises is
   * dropped in favour of the normal path.
   */
  function FieldConfigOf(configFieldNums: Option<seq<int>>, field: FieldDecl, env: Env): (r: Result<FieldOutcome, Exception>)
    // only the normal path's exception escapes
    ensures r.Failure? ==> env.slowPath(field) == Failure(r.error)
    // the fast path is used exactly when buildConfig yields a record, and then its record is the answer
    ensures (r.Success? && r.value.fast) <==>
            (configFieldNums.Some? && field.annotation.Some? &&
             FastConfig(field.annotation.value, field, configFieldNums.value, env.matchEnum).Success? &&
             FastConfig(field.annotation.value, field, configFieldNums.value, env.matchEnum).value.Some?)
    ensures r.Success? && r.value.fast ==>
            FastConfig(field.annotation.value, field, configFieldNums.value, env.matchEnum) == Success(r.value.config)
    // an annotated field the fast path cannot configure is configured normally
    ensures r.Success? && !r.value.fast && (configFieldNums.None? || field.annotation.Some?) ==>
            env.slowPath(field) == Success(r.value.config)
    ensures configFieldNums.Some? && field.annotation.None? ==> r == Success(FieldOutcome(None, false))
  {
    if configFieldNums.None? then
      var config :- env.slowPath(field);
      Success(FieldOutcome(config, false))
    else if field.annotation.None? then
      Success(FieldOutcome(None, false))
    else match FastConfig(field.annotation.value, field, configFieldNums.value, env.matchEnum)
      case Success(Some(config)) => Success(FieldOutcome(Some(config), true))
      case _ =>
        var config :- env.slowPath(field);
        Success(FieldOutcome(config, false))
  }

  /** What a field adds to the table's list: its configuration, when it is non-null and persisted. */
  function Contribution(o: FieldOutcome): seq<Record> {
    if o.config.Some? && Persisted(o.config.value) then [o.config.value] else []
  }

  /** What a field adds to `workedC`. */
  function Tally(o: FieldOutcome): nat {
    if o.fast then 1 else 0
  }

  /** The list of configurations and the `workedC` increments after walking some fields. */
  datatype Walk = Walk(configs: Result<seq<Record>, Exception>, worked: nat)

  /**
   * The walk of `fromClass` over the fields, in the order it visits them: the
   * first exception ends it, and the increments made before it stay.
   */
  function Scan(configFieldNums: Option<seq<int>>, fields: seq<FieldDecl>, env: Env): Walk
    decreases |fields|
  {
    if |fields| == 0 then Walk(Success([]), 0)
    else
      var prev := Scan(configFieldNums, fields[..|fields| - 1], env);
      if prev.configs.Failure? then prev
      else match FieldConfigOf(configFieldNums, fields[|fields| - 1], env)
        case Failure(e) => Walk(Failure(e), prev.worked)
        case Success(o) => Walk(Success(prev.configs.value + Contribution(o)), prev.worked + Tally(o))
  }

  /**
   * Reference definition of the collected list: the persisted non-null
   * configurations of the fields in order, or the first field's exception.
   */
  function Kept(configFieldNums: Option<seq<int>>, fields: seq<FieldDecl>, env: Env): Result<seq<Record>, Exception>
  {
    if |fields| == 0 then Success([])
    else
      var o :- FieldConfigOf(configFieldNums, fields[0], env);
      var rest :- Kept(configFieldNums, fields[1..], env);
      Success(Contribution(o) + rest)
  }

  /** Reference count of the fields the fast path configures, up to the first exception. */
  function FastCount(configFieldNums: Option<seq<int>>, fields: seq<FieldDecl>, env: Env): nat
  {
    if |fields| == 0 then 0
    else match FieldConfigOf(configFieldNums, fields[0], env)
      case Failure(_) => 0
      case Success(o) => Tally(o) + FastCount(configFieldNums, fields[1..], env)
  }

  /** Appending one field to the reference definitions. */
  lemma {:induction false} ReferenceSnoc(configFieldNums: Option<seq<int>>, fields: seq<FieldDecl>, field: FieldDecl, env: Env)
    ensures Kept(configFieldNums, fields + [field], env) ==
            match Kept(configFieldNums, fields, env)
              case Failure(e) => Failure(e)
              case Success(cs) =>
                match FieldConfigOf(configFieldNums, field, env)
                  case Failure(e) => Failure(e)
                  case Success(o) => Success(cs + Contribution(o))
    ensures FastCount(configFieldNums, fields + [field], env) ==
            FastCount(configFieldNums, fields, env) +
            if Kept(configFieldNums, fields, env).Success? && FieldConfigOf(configFieldNums, field, env).Success?
            then Tally(FieldConfigOf(configFieldNums, field, env).value) else 0
    decreases |fields|
  {
    if |fields| == 0 {
      assert fields + [field] == [field] && [field][1..] == [];
      match FieldConfigOf(configFieldNums, field, env)
      case Failure(_) =>
      case Success(o) =>
        assert Contribution(o) + [] == [] + Contribution(o);
    } else {
      assert (fields + [field])[1..] == fields[1..] + [field];
      ReferenceSnoc(configFieldNums, fields[1..], field, env);
      match FieldConfigOf(configFieldNums, fields[0], env)
      case Failure(_) =>
      case Success(o) =>
        match Kept(configFieldNums, fields[1..], env)
        case Failure(_) =>
        case Success(rest) =>
          match FieldConfigOf(configFieldNums, field, env)
          case Failure(_) =>
          case Success(o') =>
            assert Contribution(o) + (rest + Contribution(o')) == (Contribution(o) + rest) + Contribution(o');
    }
  }

  /** The walk `fromClass` performs computes the reference list and count. */
  lemma {:induction false} ScanIsReference(configFieldNums: Option<seq<int>>, fields: seq<FieldDecl>, env: Env)
    ensures Scan(configFieldNums, fields, env) ==
            Walk(Kept(configFieldNums, fields, env), FastCount(configFieldNums, fields, env))
    decreases |fields|
  {
    if |fields| > 0 {
      var init := fields[..|fields| - 1];
      assert fields == init + [fields[|fields| - 1]];
      ScanIsReference(configFieldNums, init, env);
      ReferenceSnoc(configFieldNums, init, fields[|fields| - 1], env);
    }
  }

  /** Once the walk has raised, visiting more fields changes nothing. */
  lemma {:induction false} ScanFailureSticks(configFieldNums: Option<seq<int>>, fields: seq<FieldDecl>, more: seq<FieldDecl>, env: Env)
    requires Scan(configFieldNums, fields, env).configs.Failure?
    ensures Scan(configFieldNums, fields + more, env) == Scan(configFieldNums, fields, env)
    decreases |more|
  {
    if |more| == 0 {
      assert fields + more == fields;
    } else {
      var init := more[..|more| - 1];
      assert (fields + more)[..|fields + more| - 1] == fields + init;
      ScanFailureSticks(configFieldNums, fields, init, env);
    }
  }

  /** `configFromField` returns configuration `c` for this field. */
  predicate Yields(configFieldNums: Option<seq<int>>, field: FieldDecl, env: Env, c: Record) {
    var o := FieldConfigOf(configFieldNums, field, env);
    o.Success? && o.value.config == Some(c)
  }

  /**
   * A configuration is in the collected list exactly when some field's
   * `configFromField` returned it and it is persisted.
   */
  lemma {:induction false} KeptMembership(configFieldNums: Option<seq<int>>, fields: seq<FieldDecl>, env: Env, c: Record)
    requires Kept(configFieldNums, fields, env).Success?
    ensures c in Kept(configFieldNums, fields, env).value <==>
            Persisted(c) && exists i :: 0 <= i < |fields| && Yields(configFieldNums, fields[i], env, c)
    decreases |fields|
  {
    if |fields| > 0 {
      KeptMembership(configFieldNums, fields[1..], env, c);
      var o := FieldConfigOf(configFieldNums, fields[0], env).value;
      if c in Kept(configFieldNums, fields, env).value && c !in Contribution(o) {
        var i :| 0 <= i < |fields[1..]| && Yields(configFieldNums, fields[1..][i], env, c);
        assert fields[1..][i] == fields[i + 1];
      }
      if Persisted(c) && exists i :: 0 <= i < |fields| && Yields(configFieldNums, fields[i], env, c) {
        var i :| 0 <= i < |fields| && Yields(configFieldNums, fields[i], env, c);
        if i > 0 {
          assert fields[1..][i - 1] == fields[i];
        }
      }
    }
  }

  /** The walk raises exactly when some field's `configFromField` raises. */
  lemma {:induction false} KeptFails(configFieldNums: Option<seq<int>>, fields: seq<FieldDecl>, env: Env)
    ensures Kept(configFieldNums, fields, env).Failure? <==>
            exists i :: 0 <= i < |fields| && FieldConfigOf(configFieldNums, fields[i], env).Failure?
    decreases |fields|
  {
    if |fields| > 0 {
      KeptFails(configFieldNums, fields[1..], env);
      if exists i :: 0 <= i < |fields[1..]| && FieldConfigOf(configFieldNums, fields[1..][i], env).Failure? {
        var i :| 0 <= i < |fields[1..]| && FieldConfigOf(configFieldNums, fields[1..][i], env).Failure?;
        assert fields[1..][i] == fields[i + 1];
      }
      if exists i :: 0 <= i < |fields| && FieldConfigOf(configFieldNums, fields[i], env).Failure? {
        var i :| 0 <= i < |fields| && FieldConfigOf(configFieldNums, fields[i], env).Failure?;
        if i > 0 {
          assert fields[1..][i - 1] == fields[i];
        }
      }
    }
  }

  /** Without an ordinal array no field is configured by the fast path. */
  lemma {:induction false} NoOrdinalsNeverFast(fields: seq<FieldDecl>, env: Env)
    ensures FastCount(None, fields, env) == 0
    decreases |fields|
  {
    if |fields| > 0 {
      NoOrdinalsNeverFast(fields[1..], env);
    }
  }

  /**
   * The fields `fromClass` visits: those of the class itself, then those of
   * each superclass in turn (`hierarchy[0]` is the class, `hierarchy[i + 1]`
   * the superclass of `hierarchy[i]`).
   */
  function Flatten(hierarchy: seq<ClassDecl>): seq<FieldDecl>
    decreases |hierarchy|
  {
    if |hierarchy| == 0 then []
    else Flatten(hierarchy[..|hierarchy| - 1]) + hierarchy[|hierarchy| - 1].declaredFields
  }

  lemma {:induction false} FlattenAppend(upper: seq<ClassDecl>, lower: seq<ClassDecl>)
    ensures Flatten(upper + lower) == Flatten(upper) + Flatten(lower)
    decreases |lower|
  {
    if |lower| == 0 {
      assert upper + lower == upper;
    } else {
      var init := lower[..|lower| - 1];
      assert (upper + lower)[..|upper + lower| - 1] == upper + init;
      FlattenAppend(upper, init);
    }
  }

  /** A class's own fields come before all those of its superclasses. */
  lemma FlattenOrder(hierarchy: seq<ClassDecl>)
    requires |hierarchy| > 0
    ensures Flatten(hierarchy) == hierarchy[0].declaredFields + Flatten(hierarchy[1..])
  {
    var top := [hierarchy[0]];
    assert hierarchy == top + hierarchy[1..];
    FlattenAppend(top, hierarchy[1..]);
    assert top[..0] == [];
    assert Flatten(top) == hierarchy[0].declaredFields;
  }

  /** One more field visited by the walk. */
  lemma ScanSnoc(configFieldNums: Option<seq<int>>, fields: seq<FieldDecl>, field: FieldDecl, env: Env)
    requires Scan(configFieldNums, fields, env).configs.Success?
    ensures Scan(configFieldNums, fields + [field], env) ==
            match FieldConfigOf(configFieldNums, field, env)
              case Failure(e) => Walk(Failure(e), Scan(configFieldNums, fields, env).worked)
              case Success(o) => Walk(Success(Scan(configFieldNums, fields, env).configs.value + Contribution(o)),
                                      Scan(configFieldNums, fields, env).worked + Tally(o))
  {
    assert (fields + [field])[..|fields|] == fields;
  }

  lemma SliceSnoc<T>(prefix: seq<T>, s: seq<T>, f: nat)
    requires f < |s|
    ensures prefix + s[..f + 1] == (prefix + s[..f]) + [s[f]]
  {
    assert s[..f + 1] == s[..f] + [s[f]];
  }

  lemma Regroup<T>(a: seq<T>, b: seq<T>, f: nat, d: seq<T>)
    requires f <= |b|
    ensures (a + b) + d == (a + b[..f]) + (b[f..] + d)
  {
    assert b == b[..f] + b[f..];
  }

  /** Visiting class `c` after the classes before it. */
  lemma FlattenStep(hierarchy: seq<ClassDecl>, c: nat)
    requires c < |hierarchy|
    ensures Flatten(hierarchy[..c + 1]) == Flatten(hierarchy[..c]) + hierarchy[c].declaredFields
  {
    assert hierarchy[..c + 1][..c] == hierarchy[..c];
  }

  /**
   * An exception at field `f` of class `c` is the outcome of the whole walk.
   */
  lemma WalkStopsAt(configFieldNums: Option<seq<int>>, hierarchy: seq<ClassDecl>, c: nat, f: nat, env: Env)
    requires c < |hierarchy| && f < |hierarchy[c].declaredFields|
    requires Scan(configFieldNums, Flatten(hierarchy[..c]) + hierarchy[c].declaredFields[..f + 1], env).configs.Failure?
    ensures Scan(configFieldNums, Flatten(hierarchy), env) ==
            Scan(configFieldNums, Flatten(hierarchy[..c]) + hierarchy[c].declaredFields[..f + 1], env)
  {
    var fields := hierarchy[c].declaredFields;
    var walked := Flatten(hierarchy[..c]) + fields[..f + 1];
    var rest := fields[f + 1..] + Flatten(hierarchy[c + 1..]);
    FlattenAppend(hierarchy[..c + 1], hierarchy[c + 1..]);
    FlattenStep(hierarchy, c);
    assert hierarchy[..c + 1] + hierarchy[c + 1..] == hierarchy;
    Regroup(Flatten(hierarchy[..c]), fields, f + 1, Flatten(hierarchy[c + 1..]));
    ScanFailureSticks(configFieldNums, walked, rest, env);
  }

  /** The table configuration `fromClass` builds. */
  datatype TableConfig = TableConfig(dataClass: string, tableName: string, fieldConfigs: seq<Record>)

  /**
   * What `fromClass` returns: null when no field yields a persisted
   * configuration, otherwise the table configuration of the class with them.
   */
  function TableConfigOf(configFieldNums: Option<seq<int>>, hierarchy: seq<ClassDecl>, tableName: string, env: Env)
    : (r: Result<Option<TableConfig>, Exception>)
    requires |hierarchy| > 0
  {
    var configs :- Kept(configFieldNums, Flatten(hierarchy), env);
    if |configs| == 0 then Success(None)
    else Success(Some(TableConfig(hierarchy[0].name, tableName, configs)))
  }

  /**
   * `fromClass` gives null exactly when it raises nothing and no field of the
   * hierarchy yields a persisted non-null configuration; every configuration
   * it lists is persisted.
   */
  lemma TableConfigOfEmpty(configFieldNums: Option<seq<int>>, hierarchy: seq<ClassDecl>, tableName: string, env: Env)
    requires |hierarchy| > 0
    ensures TableConfigOf(configFieldNums, hierarchy, tableName, env) == Success(None) <==>
            Kept(configFieldNums, Flatten(hierarchy), env).Success? &&
            forall i :: 0 <= i < |Flatten(hierarchy)| ==>
              var o := FieldConfigOf(configFieldNums, Flatten(hierarchy)[i], env);
              o.Success? && (o.value.config.None? || !Persisted(o.value.config.value))
    ensures TableConfigOf(configFieldNums, hierarchy, tableName, env).Success? &&
            TableConfigOf(configFieldNums, hierarchy, tableName, env).value.Some? ==>
            var t := TableConfigOf(configFieldNums, hierarchy, tableName, env).value.value;
            t.dataClass == hierarchy[0].name && t.tableName == tableName && |t.fieldConfigs| > 0 &&
            forall c :: c in t.fieldConfigs ==> Persisted(c)
  {
    var fields := Flatten(hierarchy);
    KeptFails(configFieldNums, fields, env);
    if Kept(configFieldNums, fields, env).Success? {
      var configs := Kept(configFieldNums, fields, env).value;
      forall c | c in configs
        ensures Persisted(c)
      {
        KeptMembership(configFieldNums, fields, env, c);
      }
      if |configs| > 0 {
        var c := configs[0];
        KeptMembership(configFieldNums, fields, env, c);
      } else {
        forall i | 0 <= i < |fields|
          ensures var o := FieldConfigOf(configFieldNums, fields[i], env);
                  o.Success? && (o.value.config.None? || !Persisted(o.value.config.value))
        {
          var o := FieldConfigOf(configFieldNums, fields[i], env);
          if o.value.config.Some? {
            KeptMembership(configFieldNums, fields, env, o.value.config.value);
          }
        }
      }
    }
  }

  /**
   * The static state of `DatabaseTableConfigUtil`: the ordinal array found
   * when the class is initialised (null when the runtime is not the expected
   * Harmony one) and the count of fields the fast path has configured.
   */
  class TableConfigUtil {
    const configFieldNums: Option<seq<int>>
    var workedC: nat

    /** Class initialisation, given what `lookupClasses` produced. */
    constructor (configFieldNums: Option<seq<int>>)
      ensures this.configFieldNums == configFieldNums && workedC == 0
    {
      this.configFieldNums := configFieldNums;
      workedC := 0;
    }

    /** `getWorkedC`. */
    function GetWorkedC(): (r: nat)
      reads this
      ensures r == workedC
    {
      workedC
    }

    /** `configFromField`: counts each field the fast path configures. */
    method ConfigFromField(field: FieldDecl, env: Env) returns (config: Result<Option<Record>, Exception>)
      modifies this`workedC
      ensures match FieldConfigOf(configFieldNums, field, env)
        case Failure(e) => config == Failure(e) && workedC == old(workedC)
        case Success(o) => config == Success(o.config) && workedC == old(workedC) + Tally(o)
    {
      if configFieldNums.None? {
        config := env.slowPath(field);
        return;
      }
      if field.annotation.None? {
        return Success(None);
      }
      var built := BuildConfig(field.annotation.value, field, configFieldNums.value, env.matchEnum);
      if built.Success? && built.value.Some? {
        workedC := workedC + 1;
        var record := built.value.value.Snapshot();
        return Success(Some(record));
      }
      config := env.slowPath(field);
    }

    /**
     * `fromClass`: walks the class and its superclasses, keeping every
     * non-null persisted field configuration in order.
     */
    method FromClass(hierarchy: seq<ClassDecl>, tableName: string, env: Env) returns (r: Result<Option<TableConfig>, Exception>)
      requires |hierarchy| > 0
      modifies this`workedC
      ensures r == TableConfigOf(configFieldNums, hierarchy, tableName, env)
      ensures workedC == old(workedC) + FastCount(configFieldNums, Flatten(hierarchy), env)
    {
      var fieldConfigs: seq<Record> := [];
      ScanIsReference(configFieldNums, Flatten(hierarchy), env);
      for c := 0 to |hierarchy|
        invariant Scan(configFieldNums, Flatten(hierarchy[..c]), env).configs == Success(fieldConfigs)
        invariant workedC == old(workedC) + Scan(configFieldNums, Flatten(hierarchy[..c]), env).worked
      {
        var fields := hierarchy[c].declaredFields;
        ghost var visited := Flatten(hierarchy[..c]);
        assert visited + fields[..0] == visited;
        for f := 0 to |fields|
          invariant Scan(configFieldNums, visited + fields[..f], env).configs == Success(fieldConfigs)
          invariant workedC == old(workedC) + Scan(configFieldNums, visited + fields[..f], env).worked
        {
          ghost var before := visited + fields[..f];
          SliceSnoc(visited, fields, f);
          ScanSnoc(configFieldNums, before, fields[f], env);
          ghost var outcome := FieldConfigOf(configFieldNums, fields[f], env);
          var config := ConfigFromField(fields[f], env);
          if config.Failure? {
            assert outcome.Failure?;
            WalkStopsAt(configFieldNums, hierarchy, c, f, env);
            return Failure(config.error);
          }
          assert outcome.Success? && config.value == outcome.value.config;
          if config.value.Some? && Persisted(config.value.value) {
            fieldConfigs := fieldConfigs + [config.value.value];
          }
          assert fieldConfigs == Scan(configFieldNums, before, env).configs.value + Contribution(outcome.value);
        }
        assert fields[..|fields|] == fields;
        FlattenStep(hierarchy, c);
      }
      assert hierarchy[..|hierarchy|] == hierarchy;
      if |fieldConfigs| == 0 {
        return Success(None);
      }
      return Success(Some(TableConfig(hierarchy[0].name, tableName, fieldConfigs)));
    }
  }
}
