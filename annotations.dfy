/**
 * The reflective world of the Android runtime, reduced to plain values: the
 * annotation proxy of a field, its array of name/value members, the fields a
 * class declares, and the exceptions the fast path can raise.
 */
module Annotations {
  import opened Wrappers

  /** Java's `int` (and the unboxed `Integer` an annotation member holds). */
  newtype int32 = x: int | -0x8000_0000 <= x < 0x8000_0000

  /** An opaque `DataType` enum constant, identified by its name. */
  datatype DataType = DataType(name: string)

  /** An opaque `Class<? extends DataPersister>`, identified by its name. */
  datatype PersisterClass = PersisterClass(name: string)

  /** An opaque enum constant of the field's own enum type. */
  datatype EnumValue = EnumValue(name: string)

  /** The value an annotation member holds, tagged with its Java class. */
  datatype Value =
    | StrVal(s: string)
    | BoolVal(b: bool)
    | IntVal(i: int32)
    | DataTypeVal(t: DataType)
    | ClassVal(c: PersisterClass)

  /** One `AnnotationMember` of the proxy: its name and its (possibly null) value. */
  datatype Member = Member(name: string, value: Option<Value>)

  /**
   * The `@DatabaseField` annotation instance of a field, seen through its
   * invocation handler: whether that handler is the runtime's
   * `AnnotationFactory`, and the handler's `elements` array (null or not).
   */
  datatype AnnotationProxy = AnnotationProxy(handlerIsFactory: bool, elements: Option<seq<Member>>)

  /** A declared field: its name and its `@DatabaseField` annotation, if any. */
  datatype FieldDecl = FieldDecl(name: string, annotation: Option<AnnotationProxy>)

  /** One class of the hierarchy and its fields in the order `getDeclaredFields` returns them. */
  datatype ClassDecl = ClassDecl(name: string, declaredFields: seq<FieldDecl>)

  /** The exceptions the modelled code raises or lets through. */
  datatype Exception =
    | ClassCastException
    | ArrayIndexOutOfBoundsException(index: int)
      /** IllegalStateException "Could not find support for DatabaseField <name>" */
    | UnknownConfigName(name: string)
      /** IllegalStateException "Could not find support for DatabaseField number <num>" */
    | UnknownConfigNum(num: int)
      /** an exception raised by a collaborator that is not part of this model */
    | Thrown(message: string)

  /** `DatabaseField.DEFAULT_STRING`: the annotation's "no default value" marker. */
  const DEFAULT_STRING := "__ormlite__ no default value string was specified"

  /** `DatabaseFieldConfig.findMatchingEnumVal(field, name)`. */
  type EnumMatcher = (FieldDecl, string) -> Result<Option<EnumValue>, Exception>
}
