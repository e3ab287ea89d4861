/**
 * Attribute keys and values of geometry records, and the two ways Python
 * turns them into text: `str` (what an f-string uses) and `repr` (what a
 * tuple uses for its items and what `!r` uses).
 */
module Values {

  /** A string, an integer, or a pair (what `dict.items()` yields per entry). */
  datatype Value = Str(s: string) | Int(i: int) | Tuple(first: Value, second: Value)

  function DigitChar(d: nat): char
    requires d < 10
  {
    "0123456789"[d]
  }

  /** Decimal digits of `n`, most significant first. */
  function NatToString(n: nat): string
    decreases n
  {
    if n < 10 then [DigitChar(n)] else NatToString(n / 10) + [DigitChar(n % 10)]
  }

  function IntToString(i: int): string {
    if i < 0 then "-" + NatToString(-i) else NatToString(i)
  }

  /** Python's `str(v)`: a string is itself, a tuple shows the `repr` of its items. */
  function Format(v: Value): string
    decreases v, 0
  {
    match v
    case Str(s) => s
    case Int(i) => IntToString(i)
    case Tuple(a, b) => "(" + Repr(a) + ", " + Repr(b) + ")"
  }

  /** Python's `repr(v)`: a string in single quotes, anything else as `str`. */
  function Repr(v: Value): string
    decreases v, 1
  {
    match v
    case Str(s) => "'" + s + "'"
    case _ => Format(v)
  }

  /** `part` occurs in `text` starting at position `i`. */
  predicate OccursAt(text: string, part: string, i: int) {
    0 <= i <= |text| - |part| && text[i..i + |part|] == part
  }

  /** `part` occurs in `text` as a contiguous piece. */
  ghost predicate Contains(text: string, part: string) {
    exists i :: OccursAt(text, part, i)
  }

  lemma ContainsItself(text: string)
    ensures Contains(text, text)
  {
    assert OccursAt(text, text, 0);
  }

  /** A piece of `text` is a piece of `text + post`. */
  lemma ContainsInPrefix(text: string, post: string, part: string)
    requires Contains(text, part)
    ensures Contains(text + post, part)
  {
    var i :| OccursAt(text, part, i);
    assert (text + post)[i..i + |part|] == text[i..i + |part|];
    assert OccursAt(text + post, part, i);
  }

  /** A piece of `text` is a piece of `pre + text`. */
  lemma ContainsInSuffix(pre: string, text: string, part: string)
    requires Contains(text, part)
    ensures Contains(pre + text, part)
  {
    var i :| OccursAt(text, part, i);
    assert (pre + text)[|pre| + i..|pre| + i + |part|] == text[i..i + |part|];
    assert OccursAt(pre + text, part, |pre| + i);
  }

  /** The items of a list of strings as Python shows them inside brackets: `'a', 'b'`. */
  function JoinReprs(names: seq<string>): string
    decreases |names|
  {
    if |names| == 0 then ""
    else if |names| == 1 then Repr(Str(names[0]))
    else Repr(Str(names[0])) + ", " + JoinReprs(names[1..])
  }

  /** Python's `str` of a list of strings: `['a', 'b']`. */
  function ListRepr(names: seq<string>): string {
    "[" + JoinReprs(names) + "]"
  }

  /** The text of a list shows each of its items in quotes. */
  lemma {:induction false} ListReprShowsItems(names: seq<string>)
    ensures forall n :: n in names ==> Contains(ListRepr(names), "'" + n + "'")
  {
    JoinReprsShowsItems(names);
    forall n | n in names
      ensures Contains(ListRepr(names), "'" + n + "'")
    {
      ContainsInSuffix("[", JoinReprs(names), "'" + n + "'");
      ContainsInPrefix("[" + JoinReprs(names), "]", "'" + n + "'");
    }
  }

  lemma {:induction false} JoinReprsShowsItems(names: seq<string>)
    ensures forall n :: n in names ==> Contains(JoinReprs(names), "'" + n + "'")
    decreases |names|
  {
    if |names| == 1 {
      ContainsItself(Repr(Str(names[0])));
    } else if |names| > 1 {
      var head, rest := Repr(Str(names[0])), JoinReprs(names[1..]);
      JoinReprsShowsItems(names[1..]);
      forall n | n in names
        ensures Contains(JoinReprs(names), "'" + n + "'")
      {
        if n == names[0] {
          ContainsItself(head);
          ContainsInPrefix(head, ", ", head);
          ContainsInPrefix(head + ", ", rest, head);
        } else {
          assert n in names[1..];
          ContainsInSuffix(head + ", ", rest, "'" + n + "'");
        }
      }
    }
  }
}
