/**
 * The primitive value kinds that Souffle's relational abstract machine (RAM)
 * uses to tag data, the decoder from their one-character codes and the
 * renderer that writes a kind's qualified label to an output stream.
 */
module RamPrimitiveTypes {

  /** Conventional optional value: `None` is the decoder's rejection. */
  datatype Option<T> = None | Some(value: T)

  /** The closed enumeration of primitive kinds. */
  datatype RamPrimitiveType =
    | String    // opaque textual value
    | Signed    // signed number
    | Unsigned  // unsigned number
    | Float     // floating point number

  /** Every kind, each listed once, in declaration order. */
  const AllTypes: seq<RamPrimitiveType> := [String, Signed, Unsigned, Float]

  /** The characters the decoder accepts. */
  const ValidCodes: set<char> := {'s', 'i', 'f', 'u'}

  /** The qualifier every rendered label starts with. */
  const LabelPrefix: string := "RamPrimitiveType::"

  /** The canonical one-character code of each kind: the decoder's inverse. */
  ghost function Code(t: RamPrimitiveType): (c: char)
    ensures c in ValidCodes
  {
    match t
    case String => 's'
    case Signed => 'i'
    case Unsigned => 'u'
    case Float => 'f'
  }

  /**
   * Decodes a one-character code. A character outside `ValidCodes` is an
   * invalid conversion and is rejected with `None`: no kind is made up for it.
   */
  function FromChar(c: char): (r: Option<RamPrimitiveType>)
    ensures r.Some? <==> c in ValidCodes
    ensures forall t :: r == Some(t) <==> c == Code(t)
  {
    match c
    case 's' => Some(String)
    case 'i' => Some(Signed)
    case 'f' => Some(Float)
    case 'u' => Some(Unsigned)
    case _ => None
  }

  /** Two accepted codes that decode to the same kind are the same code. */
  lemma FromCharInjective(c1: char, c2: char)
    requires FromChar(c1).Some?
    ensures FromChar(c1) == FromChar(c2) ==> c1 == c2
  {
  }

  /** Every kind is the decoding of exactly one character. */
  lemma FromCharExactlyOne(t: RamPrimitiveType)
    ensures exists c :: FromChar(c) == Some(t) && forall c' :: FromChar(c') == Some(t) ==> c' == c
  {
    assert FromChar(Code(t)) == Some(t);
  }

  /** The four accepted codes are mapped onto the four kinds, none left out. */
  lemma FromCharImage()
    ensures |ValidCodes| == |AllTypes| == 4
    ensures (set c | c in ValidCodes :: FromChar(c).value) == set t | t in AllTypes
  {
  }

  /** No value of the type lies outside the enumeration, and none is listed twice. */
  lemma Exhaustive(t: RamPrimitiveType)
    ensures t in AllTypes
    ensures forall i, j :: 0 <= i < j < |AllTypes| ==> AllTypes[i] != AllTypes[j]
  {
  }

  /** The name under which each kind is declared in the enumeration. */
  ghost function EnumeratorName(t: RamPrimitiveType): (n: string)
    ensures n != []
  {
    match t
    case String => "String"
    case Signed => "Signed"
    case Unsigned => "Unsigned"
    case Float => "Float"
  }

  /** The qualified label the stream operator writes for a kind. */
  function Label(t: RamPrimitiveType): (r: string)
    ensures r == LabelPrefix + EnumeratorName(t)
    ensures LabelPrefix < r && |r| > 1
  {
    match t
    case String => "RamPrimitiveType::String"
    case Signed => "RamPrimitiveType::Signed"
    case Float => "RamPrimitiveType::Float"
    case Unsigned => "RamPrimitiveType::Unsigned"
  }

  /** Different kinds render to different labels. */
  lemma LabelInjective(t1: RamPrimitiveType, t2: RamPrimitiveType)
    ensures Label(t1) == Label(t2) ==> t1 == t2
  {
  }

  /** A label is not a one-character code, so decoding does not undo rendering. */
  lemma LabelNotACode(t: RamPrimitiveType)
    ensures forall c :: Label(t) != [c]
  {
  }

  /** Stand-in for `std::ostream`: the text written so far, only ever extended. */
  class OStream {
    var text: string

    constructor ()
      ensures text == []
    {
      text := [];
    }

    /** Writes a string literal to the stream. */
    method Write(s: string)
      modifies this
      ensures text == old(text) + s
    {
      text := text + s;
    }
  }

  /**
   * The stream operator: appends the label of `t` to `os` and returns the
   * same stream, so that writes can be chained.
   */
  method WriteType(os: OStream, t: RamPrimitiveType) returns (r: OStream)
    modifies os
    ensures r == os
    ensures os.text == old(os.text) + Label(t)
    ensures old(os.text) < os.text && os.text[|old(os.text)|..] == Label(t)
  {
    match t {
      case String => os.Write("RamPrimitiveType::String");
      case Signed => os.Write("RamPrimitiveType::Signed");
      case Float => os.Write("RamPrimitiveType::Float");
      case Unsigned => os.Write("RamPrimitiveType::Unsigned");
    }
    r := os;
  }
}
