/** The JSON scalars a request field may hold, and Python's `str()` and
    `==` on them as the two Flask services apply them. */
module Json {
  import opened Text

  /** A JSON scalar that may stand in the `token` field of a push. */
  datatype JsonScalar = JString(s: string) | JInt(i: int) | JBool(b: bool) | JNull

  /** Python's `str()` on the value `get_json()` decoded. */
  function PyStr(v: JsonScalar): string
  {
    match v
    case JString(s) => s
    case JInt(i) => IntToDecimal(i)
    case JBool(b) => if b then "True" else "False"
    case JNull => "None"
  }

  /** An integer token becomes its decimal spelling: a leading "-" exactly
      when it is negative, and otherwise digits that read back as the
      number. */
  lemma IntToken(i: int)
    ensures |PyStr(JInt(i))| > 0
    ensures PyStr(JInt(i))[0] == '-' <==> i < 0
    ensures i >= 0 ==>
              (forall k :: 0 <= k < |PyStr(JInt(i))| ==> IsDigit(PyStr(JInt(i))[k])) &&
              DecimalValue(PyStr(JInt(i))) == i
  {
    if i < 0 {
      NatToDecimalRoundTrip(-i);
    } else {
      NatToDecimalRoundTrip(i);
    }
  }

  /** The coerced token is "0" for exactly two pushed values: the string
      "0" and the integer 0. */
  lemma StrIsZero(v: JsonScalar)
    ensures PyStr(v) == "0" <==> v == JString("0") || v == JInt(0)
  {
    if v.JInt? {
      if v.i < 0 {
        assert PyStr(v)[0] == '-';
      } else if v.i > 0 {
        NatToDecimalRoundTrip(v.i);
        assert PyStr(v)[0] != '0';
      }
    }
  }

  /** Python's `v == '0'`: only the string "0" equals it; the integer 0
      does not. */
  predicate IsStringZero(v: JsonScalar)
  {
    v == JString("0")
  }
}
