/**
 * log/field.go: the structured log field (a zap.Field) and the Stack
 * constructor, which drops the first two lines of the captured stack trace
 * (the frame of Stack itself).
 */
module LogField {

  import opened Kube

  /** zapcore.FieldType: the types of the logrus converter table. */
  datatype FieldType =
    | UnknownType | ArrayMarshalerType | ObjectMarshalerType | BinaryType | BoolType
    | ByteStringType | Complex128Type | Complex64Type | DurationType | Float64Type
    | Float32Type | Int64Type | Int32Type | Int16Type | Int8Type | StringType
    | Uint64Type | Uint32Type | Uint16Type | Uint8Type | UintptrType | ReflectType
    | NamespaceType | StringerType | ErrorType | SkipType | TimeType

  /** zap.Field's Integer is an int64. */
  newtype Int64 = x: int | -0x8000_0000_0000_0000 <= x < 0x8000_0000_0000_0000

  /** The Interface slot of a field: nil or some value, by identity. */
  datatype Iface = NilIface | IfaceValue(id: nat)

  datatype Field = Field(key: string, fieldType: FieldType, integer: Int64, str: string, iface: Iface)

  /** The number of line breaks in a text. */
  function CountNewlines(s: string): nat
    decreases |s|
  {
    if s == [] then 0 else (if s[0] == '\n' then 1 else 0) + CountNewlines(s[1..])
  }

  /** The text after the n-th line break, if there are at least n. */
  function AfterNewlines(s: string, n: nat): Option<string>
    requires n >= 1
    decreases |s|
  {
    if s == [] then None
    else if s[0] == '\n' then (if n == 1 then Some(s[1..]) else AfterNewlines(s[1..], n - 1))
    else AfterNewlines(s[1..], n)
  }

  /** The stack text Stack keeps: everything after the second line break, or all of it when there are fewer. */
  function Trimmed(s: string): string
  {
    match AfterNewlines(s, 2)
    case Some(t) => t
    case None => s
  }

  /**
   * The text after the n-th line break exists exactly when there are at
   * least n line breaks; it is then a suffix of the text, right after a line
   * break, and preceded by exactly n of them.
   */
  lemma {:induction false} AfterNewlinesCharacterised(s: string, n: nat)
    requires n >= 1
    ensures AfterNewlines(s, n).None? <==> CountNewlines(s) < n
    ensures AfterNewlines(s, n).Some? ==>
      var t := AfterNewlines(s, n).value;
      && |t| < |s|
      && s[|s| - |t|..] == t
      && s[|s| - |t| - 1] == '\n'
      && CountNewlines(s[..|s| - |t|]) == n
    decreases |s|
  {
    if s != [] {
      var m := if s[0] == '\n' then n - 1 else n;
      if m >= 1 {
        AfterNewlinesCharacterised(s[1..], m);
        if AfterNewlines(s, n).Some? {
          var t := AfterNewlines(s, n).value;
          assert AfterNewlines(s[1..], m) == Some(t);
          var k := |s| - |t|;
          assert s[1..][|s| - 1 - |t|..] == s[k..];
          assert s[..k][1..] == s[1..][..k - 1];
        }
      } else {
        assert s[..1][1..] == [];
      }
    }
  }

  /** The trimmed stack text is always a suffix of the original. */
  lemma TrimmedIsSuffix(s: string)
    ensures |Trimmed(s)| <= |s| && s[|s| - |Trimmed(s)|..] == Trimmed(s)
    ensures CountNewlines(s) < 2 ==> Trimmed(s) == s
    ensures CountNewlines(s) >= 2 ==> |Trimmed(s)| < |s| && CountNewlines(s[..|s| - |Trimmed(s)|]) == 2
  {
    AfterNewlinesCharacterised(s, 2);
  }

  /**
   * Stack(key), with the trace zap.Stack captures as a parameter: a string
   * field under `key` whose text is the trace without its first two lines.
   * (The source walks runes by byte offset; a line break is one byte, so
   * slicing after it is slicing after the rune.)
   */
  method Stack(key: string, trace: string) returns (f: Field)
    ensures f.key == key && f.fieldType == StringType
    ensures f.str == Trimmed(trace)
  {
    f := Field(key, StringType, 0, trace, NilIface);
    var stack := f.str;
    var n := 2;
    var i := 0;
    while i < |stack|
      invariant 0 <= i <= |stack|
      invariant 1 <= n <= 2
      invariant AfterNewlines(stack, 2) == AfterNewlines(stack[i..], n)
      invariant f == Field(key, StringType, 0, trace, NilIface)
    {
      assert stack[i..][1..] == stack[i + 1..];
      if stack[i] == '\n' {
        n := n - 1;
      }
      if n == 0 {
        f := f.(str := stack[i + 1..]);
        return;
      }
      i := i + 1;
    }
  }
}
