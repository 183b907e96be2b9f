/**
 * The field configuration record (`DatabaseFieldConfig`) and
 * `assignConfigField`, which sets the one attribute an ordinal denotes.
 */
module FieldConfigs {
  import opened Wrappers
  import opened Annotations
  import opened ConfigNames

  /** An attribute value, whatever the attribute's type. */
  datatype AttrValue =
    | AStr(s: Option<string>)
    | ABool(b: bool)
    | AInt(i: int32)
    | AType(t: DataType)
    | AEnum(e: Option<EnumValue>)
    | APersister(p: PersisterClass)

  /**
   * The value of a `DatabaseFieldConfig`: the field name and its 27 attributes,
   * attribute `k` (the one ordinal `k` denotes) at index `k - 1`:
   *  1 columnName, 2 dataType, 3 defaultValue, 4 width, 5 canBeNull, 6 id,
   *  7 generatedId, 8 generatedIdSequence, 9 foreign, 10 useGetSet,
   *  11 unknownEnumValue, 12 throwIfNull, 13 persisted, 14 format, 15 unique,
   *  16 uniqueCombo, 17 index, 18 uniqueIndex, 19 indexName, 20 uniqueIndexName,
   *  21 foreignAutoRefresh, 22 maxForeignAutoRefreshLevel, 23 persisterClass,
   *  24 allowGeneratedIdInsert, 25 columnDefinition, 26 foreignAutoCreate, 27 version.
   */
  datatype Record = Record(fieldName: string, attrs: seq<AttrValue>)

  /** The Java class of an annotation member value. */
  datatype Kind = StringKind | BoolKind | IntKind | DataTypeKind | ClassKind

  function KindOf(v: Value): Kind {
    match v
    case StrVal(_) => StringKind
    case BoolVal(_) => BoolKind
    case IntVal(_) => IntKind
    case DataTypeVal(_) => DataTypeKind
    case ClassVal(_) => ClassKind
  }

  /** The class `assignConfigField` casts the member value for ordinal `k` to. */
  function ExpectedKind(k: int): Kind
    requires IsOrdinal(k)
  {
    if k in {1, 3, 8, 11, 14, 19, 20, 25} then StringKind
    else if k in {4, 22} then IntKind
    else if k == 2 then DataTypeKind
    else if k == 23 then ClassKind
    else BoolKind
  }

  // Ordinals of the attributes the lemmas below single out.
  const DEFAULT_VALUE := 3
  const UNKNOWN_ENUM_VALUE := 11
  const PERSISTED := 13

  /** `isPersisted()`. */
  predicate Persisted(r: Record) {
    |r.attrs| == 27 && r.attrs[PERSISTED - 1] == ABool(true)
  }

  const UNKNOWN_DATA_TYPE := DataType("UNKNOWN")
  const VOID_PERSISTER := PersisterClass("VoidType")

  /** `new DatabaseFieldConfig(fieldName)`: the named record with every attribute at its default. */
  function Blank(fieldName: string): (r: Record)
    ensures r.fieldName == fieldName && |r.attrs| == 27 && Persisted(r)
  {
    Record(fieldName, [
      AStr(None), AType(UNKNOWN_DATA_TYPE), AStr(None), AInt(0), ABool(true),
      ABool(false), ABool(false), AStr(None), ABool(false), ABool(false),
      AEnum(None), ABool(false), ABool(true), AStr(None), ABool(false),
      ABool(false), ABool(false), ABool(false), AStr(None), AStr(None),
      ABool(false), AInt(-1), APersister(VOID_PERSISTER), ABool(false), AStr(None),
      ABool(false), ABool(false)])
  }

  /** The setter attribute `k` denotes, applied to a record value. */
  function Set(r: Record, k: int, a: AttrValue): (r': Record)
    requires IsOrdinal(k) && |r.attrs| == 27
    ensures r'.fieldName == r.fieldName && |r'.attrs| == 27 && r'.attrs[k - 1] == a
    ensures forall j :: IsOrdinal(j) && j != k ==> r'.attrs[j - 1] == r.attrs[j - 1]
  {
    r.(attrs := r.attrs[k - 1 := a])
  }

  /** `valueIfNotBlank`: null and the empty string both become null. */
  function ValueIfNotBlank(value: Option<string>): (r: Option<string>)
    ensures r.Some? <==> value.Some? && |value.value| > 0
    ensures r.Some? ==> r == value
  {
    if value.None? || |value.value| == 0 then None else value
  }

  lemma ValueIfNotBlankIdempotent(value: Option<string>)
    ensures ValueIfNotBlank(ValueIfNotBlank(value)) == ValueIfNotBlank(value)
  {
  }

  /** The string attributes whose empty value is stored as absent. */
  const BLANK_NORMALISED: set<int> := {1, 8, 14, 19, 20, 25}

  // The casts of assignConfigField; a value of another class raises ClassCastException.

  function AsString(v: Value): Result<string, Exception> {
    if v.StrVal? then Success(v.s) else Failure(ClassCastException)
  }

  function AsBool(v: Value): Result<bool, Exception> {
    if v.BoolVal? then Success(v.b) else Failure(ClassCastException)
  }

  function AsInt(v: Value): Result<int32, Exception> {
    if v.IntVal? then Success(v.i) else Failure(ClassCastException)
  }

  function AsDataType(v: Value): Result<DataType, Exception> {
    if v.DataTypeVal? then Success(v.t) else Failure(ClassCastException)
  }

  function AsClass(v: Value): Result<PersisterClass, Exception> {
    if v.ClassVal? then Success(v.c) else Failure(ClassCastException)
  }

  /**
   * What `assignConfigField(configNum, config, field, value)` makes of a record
   * with value `r`: only the attribute `configNum` denotes may change, and the
   * record keeps its name and the types of its attributes.
   */
  function Assign(r: Record, configNum: int, field: FieldDecl, value: Value, matchEnum: EnumMatcher): (res: Result<Record, Exception>)
    requires |r.attrs| == 27
    ensures res.Success? ==> IsOrdinal(configNum) && res.value.fieldName == r.fieldName && |res.value.attrs| == 27
    ensures res.Success? ==> forall j :: IsOrdinal(j) && j != configNum ==> res.value.attrs[j - 1] == r.attrs[j - 1]
    ensures !IsOrdinal(configNum) ==> res == Failure(UnknownConfigNum(configNum))
  {
    match configNum
    case 1 => var s :- AsString(value); Success(Set(r, 1, AStr(ValueIfNotBlank(Some(s)))))
    case 2 => var t :- AsDataType(value); Success(Set(r, 2, AType(t)))
    case 3 =>
      var defaultValue :- AsString(value);
      if defaultValue == DEFAULT_STRING then Success(r) else Success(Set(r, 3, AStr(Some(defaultValue))))
    case 4 => var i :- AsInt(value); Success(Set(r, 4, AInt(i)))
    case 5 => var b :- AsBool(value); Success(Set(r, 5, ABool(b)))
    case 6 => var b :- AsBool(value); Success(Set(r, 6, ABool(b)))
    case 7 => var b :- AsBool(value); Success(Set(r, 7, ABool(b)))
    case 8 => var s :- AsString(value); Success(Set(r, 8, AStr(ValueIfNotBlank(Some(s)))))
    case 9 => var b :- AsBool(value); Success(Set(r, 9, ABool(b)))
    case 10 => var b :- AsBool(value); Success(Set(r, 10, ABool(b)))
    case 11 =>
      var s :- AsString(value);
      var e :- matchEnum(field, s);
      Success(Set(r, 11, AEnum(e)))
    case 12 => var b :- AsBool(value); Success(Set(r, 12, ABool(b)))
    case 13 => var b :- AsBool(value); Success(Set(r, 13, ABool(b)))
    case 14 => var s :- AsString(value); Success(Set(r, 14, AStr(ValueIfNotBlank(Some(s)))))
    case 15 => var b :- AsBool(value); Success(Set(r, 15, ABool(b)))
    case 16 => var b :- AsBool(value); Success(Set(r, 16, ABool(b)))
    case 17 => var b :- AsBool(value); Success(Set(r, 17, ABool(b)))
    case 18 => var b :- AsBool(value); Success(Set(r, 18, ABool(b)))
    case 19 => var s :- AsString(value); Success(Set(r, 19, AStr(ValueIfNotBlank(Some(s)))))
    case 20 => var s :- AsString(value); Success(Set(r, 20, AStr(ValueIfNotBlank(Some(s)))))
    case 21 => var b :- AsBool(value); Success(Set(r, 21, ABool(b)))
    case 22 => var i :- AsInt(value); Success(Set(r, 22, AInt(i)))
    case 23 => var c :- AsClass(value); Success(Set(r, 23, APersister(c)))
    case 24 => var b :- AsBool(value); Success(Set(r, 24, ABool(b)))
    case 25 => var s :- AsString(value); Success(Set(r, 25, AStr(ValueIfNotBlank(Some(s)))))
    case 26 => var b :- AsBool(value); Success(Set(r, 26, ABool(b)))
    case 27 => var b :- AsBool(value); Success(Set(r, 27, ABool(b)))
    case _ => Failure(UnknownConfigNum(configNum))
  }

  /**
   * The assignment succeeds exactly when the ordinal is known, the value has
   * the class that ordinal expects and, for the unknown-enum attribute, the
   * name matches a constant of the field's enum.
   */
  lemma AssignSucceeds(r: Record, configNum: int, field: FieldDecl, value: Value, matchEnum: EnumMatcher)
    requires |r.attrs| == 27
    ensures Assign(r, configNum, field, value, matchEnum).Success? <==>
      IsOrdinal(configNum) && KindOf(value) == ExpectedKind(configNum) &&
      (configNum == UNKNOWN_ENUM_VALUE ==> value.StrVal? && matchEnum(field, value.s).Success?)
  {
  }

  /**
   * What the attribute the ordinal denotes holds afterwards: the six blank-normalised
   * strings hold null for "", the default value is left alone for the "no default"
   * marker (and keeps an explicit ""), the enum attribute holds the matched constant,
   * and every other attribute holds the member value as given.
   */
  lemma AssignStores(r: Record, configNum: int, field: FieldDecl, value: Value, matchEnum: EnumMatcher)
    requires |r.attrs| == 27
    requires Assign(r, configNum, field, value, matchEnum).Success?
    ensures configNum in BLANK_NORMALISED ==>
      value.StrVal? && Assign(r, configNum, field, value, matchEnum).value.attrs[configNum - 1] == AStr(ValueIfNotBlank(Some(value.s)))
    ensures configNum in BLANK_NORMALISED && value == StrVal("") ==>
      Assign(r, configNum, field, value, matchEnum).value.attrs[configNum - 1] == AStr(None)
    ensures configNum == DEFAULT_VALUE && value == StrVal(DEFAULT_STRING) ==>
      Assign(r, configNum, field, value, matchEnum).value == r
    ensures configNum == DEFAULT_VALUE && value != StrVal(DEFAULT_STRING) ==>
      value.StrVal? && Assign(r, configNum, field, value, matchEnum).value.attrs[DEFAULT_VALUE - 1] == AStr(Some(value.s))
    ensures configNum == UNKNOWN_ENUM_VALUE ==>
      value.StrVal? && Assign(r, configNum, field, value, matchEnum).value.attrs[UNKNOWN_ENUM_VALUE - 1] == AEnum(matchEnum(field, value.s).value)
    ensures value.BoolVal? ==> Assign(r, configNum, field, value, matchEnum).value.attrs[configNum - 1] == ABool(value.b)
    ensures value.IntVal? ==> Assign(r, configNum, field, value, matchEnum).value.attrs[configNum - 1] == AInt(value.i)
    ensures value.DataTypeVal? ==> Assign(r, configNum, field, value, matchEnum).value.attrs[configNum - 1] == AType(value.t)
    ensures value.ClassVal? ==> Assign(r, configNum, field, value, matchEnum).value.attrs[configNum - 1] == APersister(value.c)
  {
  }

  /**
   * A `DatabaseFieldConfig` object, filled in place through its setters; its
   * 27 attributes are kept by ordinal, attribute `k` at index `k - 1`.
   */
  class FieldConfig {
    var fieldName: string
    var attrs: seq<AttrValue>

    /** The record this object currently holds. */
    function Snapshot(): Record
      reads this
    {
      Record(fieldName, attrs)
    }

    constructor (fieldName: string)
      ensures Snapshot() == Blank(fieldName)
    {
      this.fieldName := fieldName;
      attrs := Blank(fieldName).attrs;
    }

    /** The setter attribute `k` denotes (`setColumnName` for 1, ..., `setVersion` for 27). */
    method SetAttr(k: int, a: AttrValue)
      requires IsOrdinal(k) && |attrs| == 27
      modifies this
      ensures Snapshot() == Set(old(Snapshot()), k, a)
    {
      attrs := attrs[k - 1 := a];
    }
  }

  /**
   * `assignConfigField`: casts the value, normalises it where the ordinal asks for
   * it and calls the one setter the ordinal denotes. A failed cast, enum match or
   * an unknown ordinal raises before any setter runs, so the record is unchanged.
   */
  method AssignConfigField(configNum: int, config: FieldConfig, field: FieldDecl, value: Value, matchEnum: EnumMatcher)
    returns (outcome: Result<(), Exception>)
    requires |config.attrs| == 27
    modifies config
    ensures outcome.Success? <==> Assign(old(config.Snapshot()), configNum, field, value, matchEnum).Success?
    ensures outcome.Success? ==> config.Snapshot() == Assign(old(config.Snapshot()), configNum, field, value, matchEnum).value
    ensures outcome.Failure? ==> Assign(old(config.Snapshot()), configNum, field, value, matchEnum) == Failure(outcome.error)
    ensures outcome.Failure? ==> config.Snapshot() == old(config.Snapshot())
  {
    ghost var before := config.Snapshot();
    match configNum {
      case 1 => var s :- AsString(value); config.SetAttr(1, AStr(ValueIfNotBlank(Some(s))));
      case 2 => var t :- AsDataType(value); config.SetAttr(2, AType(t));
      case 3 =>
        var defaultValue :- AsString(value);
        if defaultValue != DEFAULT_STRING {
          config.SetAttr(3, AStr(Some(defaultValue)));
        }
      case 4 => var i :- AsInt(value); config.SetAttr(4, AInt(i));
      case 5 => var b :- AsBool(value); config.SetAttr(5, ABool(b));
      case 6 => var b :- AsBool(value); config.SetAttr(6, ABool(b));
      case 7 => var b :- AsBool(value); config.SetAttr(7, ABool(b));
      case 8 => var s :- AsString(value); config.SetAttr(8, AStr(ValueIfNotBlank(Some(s))));
      case 9 => var b :- AsBool(value); config.SetAttr(9, ABool(b));
      case 10 => var b :- AsBool(value); config.SetAttr(10, ABool(b));
      case 11 =>
        var s :- AsString(value);
        var e :- matchEnum(field, s);
        config.SetAttr(11, AEnum(e));
      case 12 => var b :- AsBool(value); config.SetAttr(12, ABool(b));
      case 13 => var b :- AsBool(value); config.SetAttr(13, ABool(b));
      case 14 => var s :- AsString(value); config.SetAttr(14, AStr(ValueIfNotBlank(Some(s))));
      case 15 => var b :- AsBool(value); config.SetAttr(15, ABool(b));
      case 16 => var b :- AsBool(value); config.SetAttr(16, ABool(b));
      case 17 => var b :- AsBool(value); config.SetAttr(17, ABool(b));
      case 18 => var b :- AsBool(value); config.SetAttr(18, ABool(b));
      case 19 => var s :- AsString(value); config.SetAttr(19, AStr(ValueIfNotBlank(Some(s))));
      case 20 => var s :- AsString(value); config.SetAttr(20, AStr(ValueIfNotBlank(Some(s))));
      case 21 => var b :- AsBool(value); config.SetAttr(21, ABool(b));
      case 22 => var i :- AsInt(value); config.SetAttr(22, AInt(i));
      case 23 => var c :- AsClass(value); config.SetAttr(23, APersister(c));
      case 24 => var b :- AsBool(value); config.SetAttr(24, ABool(b));
      case 25 => var s :- AsString(value); config.SetAttr(25, AStr(ValueIfNotBlank(Some(s))));
      case 26 => var b :- AsBool(value); config.SetAttr(26, ABool(b));
      case 27 => var b :- AsBool(value); config.SetAttr(27, ABool(b));
      case _ => return Failure(UnknownConfigNum(configNum));
    }
    assert Assign(before, configNum, field, value, matchEnum) == Success(config.Snapshot());
    outcome := Success(());
  }
}
