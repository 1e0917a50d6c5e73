/** JavaScript values as the login/consent handlers see them: parsed query
    and form fields, JavaScript truthiness, and the `[].concat(x)` coercion
    the consent form's scope list goes through. */
module Values {

  datatype Option<+T> = None | Some(value: T)

  /** The settled result of an upstream call or of a step that may throw:
      the value it resolves to, or the message of the error it rejects with. */
  datatype Reply<+T> = Ok(value: T) | Fail(error: string)

  /** A query-string or url-encoded form field after parsing: missing, one
      string, or the array the parser builds when a key is repeated. */
  datatype FormValue = Absent | Single(text: string) | Many(texts: seq<string>)

  /** One element of a JavaScript array built from a form field: a string,
      or `undefined`. */
  datatype Element = Undefined | Text(text: string)

  /** The value of `fields[key]`; a missing key reads as `undefined`. */
  function Lookup(fields: map<string, FormValue>, key: string): FormValue
  {
    if key in fields then fields[key] else Absent
  }

  /** `typeof v === 'string'`: true of a single string, false of a missing
      field and of an array. */
  function IsString(v: FormValue): (b: bool)
    ensures b <==> v.Single?
  {
    v.Single?
  }

  /** JavaScript `Boolean(v)`: `undefined` and the empty string are false,
      every other string and every array (even an empty one) is true. */
  function Truthy(v: FormValue): (b: bool)
    ensures v.Absent? ==> !b
    ensures v.Single? ==> (b <==> v.text != "")
    ensures v.Many? ==> b
  {
    match v
    case Absent => false
    case Single(s) => s != ""
    case Many(_) => true
  }

  /** The strings a field carries, in order. */
  function Submitted(v: FormValue): seq<string>
  {
    match v
    case Absent => []
    case Single(s) => [s]
    case Many(xs) => xs
  }

  /** The strings of an array, in order, skipping the `undefined` elements. */
  function Strings(r: seq<Element>): seq<string>
  {
    if r == [] then []
    else (if r[0].Text? then [r[0].text] else []) + Strings(r[1..])
  }

  /** Each string of `xs` as an array element, in the same order. */
  function Texts(xs: seq<string>): (r: seq<Element>)
    ensures |r| == |xs|
    ensures forall i :: 0 <= i < |xs| ==> r[i] == Text(xs[i])
  {
    if xs == [] then [] else [Text(xs[0])] + Texts(xs[1..])
  }

  /** `[].concat(v)`: an array is copied element by element, anything else
      (a string, or `undefined`) becomes a one-element array. */
  function ConcatOnto(v: FormValue): (r: seq<Element>)
    ensures v.Absent? ==> r == [Undefined]
    ensures v.Single? ==> r == [Text(v.text)]
    ensures v.Many? ==> |r| == |v.texts| && forall i :: 0 <= i < |r| ==> r[i] == Text(v.texts[i])
  {
    match v
    case Absent => [Undefined]
    case Single(s) => [Text(s)]
    case Many(xs) => Texts(xs)
  }

  /** Lifting strings into array elements and reading them back is the identity. */
  lemma {:induction false} StringsOfTexts(xs: seq<string>)
    ensures Strings(Texts(xs)) == xs
  {
    if xs != [] {
      StringsOfTexts(xs[1..]);
      assert Texts(xs)[1..] == Texts(xs[1..]);
    }
  }

  /** `[].concat(v)` keeps exactly the submitted strings, in order, and holds
      `undefined` exactly when the field was missing. */
  lemma ConcatKeepsSubmitted(v: FormValue)
    ensures Strings(ConcatOnto(v)) == Submitted(v)
    ensures Undefined in ConcatOnto(v) <==> v.Absent?
  {
    match v
    case Absent =>
      assert Strings([Undefined]) == [] + Strings([]);
    case Single(s) =>
      assert Strings([Text(s)]) == [s] + Strings([]);
    case Many(xs) =>
      StringsOfTexts(xs);
  }

  /** `[].concat` cannot tell a single string from a one-element array. */
  lemma ConcatForgetsShape(s: string)
    ensures ConcatOnto(Single(s)) == ConcatOnto(Many([s]))
  {
    assert Texts([s]) == [Text(s)] + Texts([]);
  }
}
