/** The two byte-level scanners that look for the object around a marker in a share page, and the
    budgets of the search (internal/baidu/pageparse.go). */
module PageParse {
  import opened Wrappers

  /** Inside a string opened by quote; escaped just after a backslash there. */
  datatype Lexer = Outside | Inside(quote: char, escaped: bool)

  predicate AnyQuote(c: char) {
    c == '"' || c == '\'' || c == '`'
  }

  predicate DoubleQuote(c: char) {
    c == '"'
  }

  function Advance(l: Lexer, c: char, opens: char -> bool): Lexer {
    match l
    case Outside => if opens(c) then Inside(c, false) else Outside
    case Inside(quote, escaped) =>
      if escaped then Inside(quote, false)
      else if c == '\\' then Inside(quote, true)
      else if c == quote then Outside
      else l
  }

  /** The lexer after data[from..i], started outside any string. */
  function Lex(data: string, from: nat, i: nat, opens: char -> bool): Lexer
    requires from <= i <= |data|
    decreases i
  {
    if i == from then Outside else Advance(Lex(data, from, i - 1, opens), data[i - 1], opens)
  }

  // ----- open objects --------------------------------------------------------------------

  /** The positions of the objects still open after i characters. */
  function Opens(data: string, i: nat): seq<nat>
    requires i <= |data|
    decreases i
  {
    if i == 0 then []
    else
      var before := Opens(data, i - 1);
      if Lex(data, 0, i - 1, AnyQuote) != Outside then before
      else if data[i - 1] == '{' then before + [i - 1]
      else if data[i - 1] == '}' && before != [] then before[..|before| - 1]
      else before
  }

  /** openObjectStack. */
  method OpenObjectStack(data: string, stop: nat) returns (stack: seq<nat>)
    ensures stack == Opens(data, if stop > |data| then |data| else stop)
  {
    stack := [];
    var quote: Option<char> := None;
    var escaped := false;
    var end := if stop > |data| then |data| else stop;
    for i := 0 to end
      invariant stack == Opens(data, i)
      invariant Lex(data, 0, i, AnyQuote) == if quote.None? then Outside else Inside(quote.value, escaped)
      invariant quote.None? ==> !escaped
    {
      var b := data[i];
      if quote.Some? {
        if escaped {
          escaped := false;
        } else if b == '\\' {
          escaped := true;
        } else if b == quote.value {
          quote := None;
        }
      } else if b == '"' || b == '\'' || b == '`' {
        quote := Some(b);
      } else if b == '{' {
        stack := stack + [i];
      } else if b == '}' {
        if |stack| > 0 { stack := stack[..|stack| - 1]; }
      }
    }
  }

  // ----- balanced objects ------------------------------------------------------------------

  /** Braces opened less braces closed in data[from..i], strings in double quotes left out. */
  function Depth(data: string, from: nat, i: nat): int
    requires from <= i <= |data|
    decreases i
  {
    if i == from then 0
    else
      var before := Depth(data, from, i - 1);
      if Lex(data, from, i - 1, DoubleQuote) != Outside then before
      else if data[i - 1] == '{' then before + 1
      else if data[i - 1] == '}' then before - 1
      else before
  }

  /** The object that starts at from ends just before end. */
  ghost predicate Balanced(data: string, from: nat, end: nat) {
    && from < end <= |data| && data[from] == '{' && data[end - 1] == '}'
    && Lex(data, from, end - 1, DoubleQuote) == Outside && Depth(data, from, end) == 0
    && forall m :: from < m < end ==> Depth(data, from, m) >= 1
  }

  /** balancedObject: where the object that starts here ends, if that is within maxBytes. */
  method BalancedObject(data: string, start: int, maxBytes: int) returns (end: Option<nat>)
    ensures end.Some? ==> 0 <= start && Balanced(data, start, end.value) && end.value - start <= maxBytes
    ensures end.None? && 0 <= start ==> forall e: nat :: Balanced(data, start, e) ==> e - start > maxBytes
  {
    if start < 0 || start >= |data| || data[start] != '{' { return None; }
    if maxBytes <= 0 { return None; }
    var depth := 0;
    var quote: Option<char> := None;
    var escaped := false;
    var i := start;
    while i < |data|
      invariant start <= i <= |data|
      invariant depth == Depth(data, start, i) && (i > start ==> depth >= 1)
      invariant Lex(data, start, i, DoubleQuote) == if quote.None? then Outside else Inside(quote.value, escaped)
      invariant quote.None? ==> !escaped
      invariant forall m :: start < m <= i ==> Depth(data, start, m) >= 1
    {
      if i - start >= maxBytes {
        return None;
      }
      var b := data[i];
      if quote.Some? {
        if escaped {
          escaped := false;
        } else if b == '\\' {
          escaped := true;
        } else if b == quote.value {
          quote := None;
        }
      } else if b == '"' {
        quote := Some(b);
      } else if b == '{' {
        depth := depth + 1;
      } else if b == '}' {
        depth := depth - 1;
        if depth == 0 {
          assert Depth(data, start, i + 1) == 0;
          return Some(i + 1);
        }
      }
      i := i + 1;
    }
    end := None;
  }

  // ----- the two scanners agree --------------------------------------------------------------

  /** Up to the position no single quote and no backtick opens a string; inside double quotes they do no harm. */
  predicate OnlyDoubleQuotes(data: string, stop: nat)
    requires stop <= |data|
  {
    forall i :: 0 <= i <= stop ==> var l := Lex(data, 0, i, AnyQuote); l.Inside? ==> l.quote == '"'
  }

  /** A '{' that stands outside any string. */
  predicate OpensAt(data: string, p: nat) {
    p < |data| && data[p] == '{' && Lex(data, 0, p, AnyQuote) == Outside
  }

  /** Nothing up to position i closes the object opened at p. */
  ghost predicate Unmatched(data: string, p: nat, i: nat)
    requires i <= |data|
  {
    OpensAt(data, p) && p < i && forall m :: p < m <= i ==> Depth(data, p, m) >= 1
  }

  lemma {:induction false} LexersAgree(data: string, p: nat, i: nat)
    requires i <= |data| && OnlyDoubleQuotes(data, i) && p <= i && Lex(data, 0, p, AnyQuote) == Outside
    ensures Lex(data, p, i, DoubleQuote) == Lex(data, 0, i, AnyQuote)
    decreases i
  {
    if p < i {
      LexersAgree(data, p, i - 1);
      assert Lex(data, 0, i, AnyQuote).Inside? ==> Lex(data, 0, i, AnyQuote).quote == '"';
    }
  }

  /** The stack holds the open objects in order, each as deep as the stack is above it. */
  lemma {:induction false} StackDepths(data: string, i: nat)
    requires i <= |data| && OnlyDoubleQuotes(data, i)
    ensures forall j :: 0 <= j < |Opens(data, i)| ==>
              Unmatched(data, Opens(data, i)[j], i) && Depth(data, Opens(data, i)[j], i) == |Opens(data, i)| - j
    decreases i
  {
    if i > 0 {
      StackDepths(data, i - 1);
      var before, after := Opens(data, i - 1), Opens(data, i);
      forall j | 0 <= j < |after| ensures Unmatched(data, after[j], i) && Depth(data, after[j], i) == |after| - j {
        var p := after[j];
        if p < i - 1 {
          assert before[j] == p;
          LexersAgree(data, p, i - 1);
        } else {
          assert Depth(data, p, i) == 1;
        }
      }
    }
  }

  /** An object that opened and is no longer on the stack was closed. */
  lemma {:induction false} OffStackClosed(data: string, p: nat, i: nat)
    requires i <= |data| && OnlyDoubleQuotes(data, i) && OpensAt(data, p) && p < i && p !in Opens(data, i)
    ensures exists m :: p < m <= i && Depth(data, p, m) < 1
    decreases i
  {
    var before := Opens(data, i - 1);
    if p !in before {
      OffStackClosed(data, p, i - 1);
    } else {
      StackDepths(data, i - 1);
      LexersAgree(data, p, i - 1);
      var j :| 0 <= j < |before| && before[j] == p;
      assert Opens(data, i) == before[..|before| - 1];
      assert j == |before| - 1;
      assert Depth(data, p, i) == 0;
    }
  }

  /** Where no single quote or backtick opens a string before the marker, the stack holds exactly the unmatched opening braces outside strings. */
  lemma OpensAreUnmatched(data: string, stop: nat, p: nat)
    requires stop <= |data| && OnlyDoubleQuotes(data, stop)
    ensures p in Opens(data, stop) <==> Unmatched(data, p, stop)
  {
    if p in Opens(data, stop) {
      StackDepths(data, stop);
      var j :| 0 <= j < |Opens(data, stop)| && Opens(data, stop)[j] == p;
    } else if OpensAt(data, p) && p < stop {
      OffStackClosed(data, p, stop);
    }
  }

  /** Any object returned from a position on the stack reaches beyond the marker at stop: it encloses it. */
  lemma ObjectEnclosesMarker(data: string, stop: nat, p: nat, end: nat)
    requires stop <= |data| && OnlyDoubleQuotes(data, stop) && p in Opens(data, stop) && Balanced(data, p, end)
    ensures p < stop < end
  {
    OpensAreUnmatched(data, stop, p);
  }

  /** A page without them, whatever its strings hold. */
  lemma {:induction false} NoOtherQuotes(data: string, stop: nat)
    requires stop <= |data| && forall c :: c in data ==> c != '\'' && c != '`'
    ensures OnlyDoubleQuotes(data, stop)
    decreases stop
  {
    if stop > 0 {
      NoOtherQuotes(data, stop - 1);
      assert data[stop - 1] in data;
    }
  }

  // ----- the marker --------------------------------------------------------------------------

  predicate FoundAt(data: string, needle: string, i: nat) {
    i + |needle| <= |data| && data[i..i + |needle|] == needle
  }

  /** bytes.Index from a position on: the first occurrence. */
  method IndexFrom(data: string, needle: string, from: nat) returns (r: Option<nat>)
    requires from <= |data|
    ensures r.Some? ==> from <= r.value && FoundAt(data, needle, r.value) && forall i: nat :: from <= i < r.value ==> !FoundAt(data, needle, i)
    ensures r.None? ==> forall i: nat :: from <= i ==> !FoundAt(data, needle, i)
  {
    var i := from;
    while i + |needle| <= |data|
      invariant from <= i
      invariant forall j: nat :: from <= j < i ==> !FoundAt(data, needle, j)
    {
      if data[i..i + |needle|] == needle { return Some(i); }
      i := i + 1;
    }
    r := None;
  }

  const MARKER := "loginstate"

  /** A brace in single quotes before the marker: the object found on the stack ends before it. */
  lemma SingleQuoteMisleads()
    ensures var data := "{'}'" + MARKER; FoundAt(data, MARKER, 4) && 0 in Opens(data, 4) && Balanced(data, 0, 3) && !OnlyDoubleQuotes(data, 4)
  {
    var data := "{'}'" + MARKER;
    assert data[4..14] == MARKER;
    assert Lex(data, 0, 0, AnyQuote) == Outside && Opens(data, 0) == [];
    assert Lex(data, 0, 1, AnyQuote) == Outside && Opens(data, 1) == [0];
    assert Lex(data, 0, 2, AnyQuote) == Inside('\'', false) && Opens(data, 2) == [0];
    assert Lex(data, 0, 3, AnyQuote) == Inside('\'', false) && Opens(data, 3) == [0];
    assert Opens(data, 4) == [0];
    assert Lex(data, 0, 1, DoubleQuote) == Outside && Depth(data, 0, 1) == 1;
    assert Lex(data, 0, 2, DoubleQuote) == Outside && Depth(data, 0, 2) == 1;
    assert Depth(data, 0, 3) == 0;
  }

  lemma BalancedOnce(data: string, p: nat, a: nat, b: nat)
    requires Balanced(data, p, a) && Balanced(data, p, b)
    ensures a == b
  {
  }

  /** Two markers never overlap: going on behind one skips none. */
  lemma MarkersApart(data: string, i: nat)
    requires FoundAt(data, MARKER, i)
    ensures forall j: nat :: i < j < i + 10 ==> !FoundAt(data, MARKER, j)
  {
    forall j: nat | i < j < i + 10 ensures !FoundAt(data, MARKER, j) {
      assert data[j] == data[i..i + 10][j - i] == MARKER[j - i] != 'l';
      assert j + 10 <= |data| ==> data[j..j + 10][0] == data[j];
    }
  }

  /** The stack holds the positions in order. */
  lemma {:induction false} OpensAscend(data: string, i: nat)
    requires i <= |data|
    ensures forall a :: 0 <= a < |Opens(data, i)| ==> Opens(data, i)[a] < i
    ensures forall a, b :: 0 <= a < b < |Opens(data, i)| ==> Opens(data, i)[a] < Opens(data, i)[b]
    decreases i
  {
    if i > 0 { OpensAscend(data, i - 1); }
  }
}
