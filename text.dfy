/**
 * The text normalisation every branch of `on_status` applies before writing a
 * status to the text sink: `text.replace('\n', ' ').replace('\r', '')`.
 */
module Text {

  /** `t.replace('\n', ' ')`: each newline becomes a space, in place. */
  function ReplaceNewlines(t: string): (r: string)
    ensures |r| == |t|
    ensures forall i :: 0 <= i < |t| ==> r[i] == (if t[i] == '\n' then ' ' else t[i])
    ensures multiset(r)['\r'] == multiset(t)['\r']
  {
    if t == [] then []
    else
      assert t == [t[0]] + t[1..];
      [if t[0] == '\n' then ' ' else t[0]] + ReplaceNewlines(t[1..])
  }

  /** `t.replace('\r', '')`: each carriage return is dropped. */
  function RemoveCarriageReturns(t: string): (r: string)
    ensures '\r' !in r
    ensures |r| == |t| - multiset(t)['\r']
    ensures forall c :: c in r ==> c in t
  {
    if t == [] then []
    else
      assert t == [t[0]] + t[1..];
      (if t[0] == '\r' then [] else [t[0]]) + RemoveCarriageReturns(t[1..])
  }

  /** The single-line text written to the sink. */
  function Normalise(t: string): (r: string)
    ensures '\n' !in r && '\r' !in r
    ensures |r| == |t| - multiset(t)['\r']
  {
    RemoveCarriageReturns(ReplaceNewlines(t))
  }

  /**
   * An independent, one-pass reading of the two replacements: every carriage
   * return is dropped, every newline becomes a space, and every other
   * character is kept, in its order.
   */
  function OneLine(t: string): string
  {
    if t == [] then []
    else if t[0] == '\r' then OneLine(t[1..])
    else [if t[0] == '\n' then ' ' else t[0]] + OneLine(t[1..])
  }

  /** The chain of two replacements is the one-pass transformation. */
  lemma {:induction false} NormaliseIsOneLine(t: string)
    ensures Normalise(t) == OneLine(t)
  {
    if t != [] {
      NormaliseIsOneLine(t[1..]);
      var n := ReplaceNewlines(t);
      assert n == [n[0]] + ReplaceNewlines(t[1..]);
      assert RemoveCarriageReturns(n) == (if n[0] == '\r' then [] else [n[0]]) + RemoveCarriageReturns(n[1..]);
    }
  }

  /** A text that already is a single line is left as it is. */
  lemma {:induction false} OneLineKeepsCleanText(t: string)
    requires '\n' !in t && '\r' !in t
    ensures OneLine(t) == t
  {
    if t != [] {
      assert t[0] in t;
      assert forall c :: c in t[1..] ==> c in t;
      OneLineKeepsCleanText(t[1..]);
      assert t == [t[0]] + t[1..];
    }
  }

  /** Normalising twice gives the same text as normalising once. */
  lemma NormaliseIdempotent(t: string)
    ensures Normalise(Normalise(t)) == Normalise(t)
  {
    var once := Normalise(t);
    NormaliseIsOneLine(once);
    OneLineKeepsCleanText(once);
  }

  /** Normalisation works character by character, so it distributes over concatenation. */
  lemma {:induction false} OneLineAppend(a: string, b: string)
    ensures OneLine(a + b) == OneLine(a) + OneLine(b)
  {
    if a == [] {
      assert a + b == b;
    } else {
      assert (a + b)[0] == a[0] && (a + b)[1..] == a[1..] + b;
      OneLineAppend(a[1..], b);
    }
  }

  /**
   * A single-line text followed by one newline (a status such as "hello world\n")
   * normalises to the text followed by a space, not to the text alone.
   */
  lemma TrailingNewlineBecomesSpace(body: string)
    requires '\n' !in body && '\r' !in body
    ensures Normalise(body + "\n") == body + " "
  {
    NormaliseIsOneLine(body + "\n");
    OneLineAppend(body, "\n");
    OneLineKeepsCleanText(body);
    assert OneLine("\n") == " ";
  }
}
