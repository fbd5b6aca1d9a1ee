/** The search of a share page for its metadata and the budgets of the search (internal/baidu/pageparse.go):
    what it finds is there, and what it does not find it has looked for. */
module PageSearch {
  import opened Wrappers
  import opened PageParse

  datatype Context = Context(bdstoken: string, shareid: string, shareUk: string, uk: string)

  /** What decoding an object yields: nothing usable, share metadata, or strings that may embed a page of their own. */
  datatype Decoded = Invalid | Metadata(context: Context) | Embedded(candidates: seq<string>)

  const MAX_DEPTH: nat := 3
  const MAX_STARTS: nat := 32
  const MAX_SCAN_BYTES: nat := 50331648
  const MAX_OBJECT_BYTES: nat := 50331648
  const MAX_OBJECTS: nat := 64

  /** The object data[p..end] stands around the marker at index, among the innermost ones. */
  ghost predicate Around(data: string, index: nat, p: nat, end: nat) {
    && FoundAt(data, MARKER, index) && Balanced(data, p, end)
    && p in Nearest(Opens(data, index))
  }

  function Nearest(opens: seq<nat>): seq<nat> {
    if |opens| > MAX_STARTS then opens[|opens| - MAX_STARTS..] else opens
  }

  /** The context is the metadata of an object around a marker, or of one in a text embedded there. */
  ghost predicate FoundIn(decode: (string, nat) -> Decoded, data: string, depth: nat, context: Context)
    decreases MAX_DEPTH + 1 - depth, 2
  {
    exists index: nat, p: nat, end: nat :: Around(data, index, p, end) && Yields(decode, data[p..end], depth, context)
  }

  ghost predicate Yields(decode: (string, nat) -> Decoded, text: string, depth: nat, context: Context)
    decreases MAX_DEPTH + 1 - depth, 1
  {
    exists order :: YieldsAs(decode, text, order, depth, context)
  }

  /** decode(text, order) is what decoding yields when maps happen to be walked in this order. */
  ghost predicate YieldsAs(decode: (string, nat) -> Decoded, text: string, order: nat, depth: nat, context: Context)
    decreases MAX_DEPTH + 1 - depth, 0
  {
    match decode(text, order)
    case Invalid => false
    case Metadata(found) => found == context
    case Embedded(candidates) => depth < MAX_DEPTH && exists j :: 0 <= j < |candidates| && FoundIn(decode, candidates[j], depth + 1, context)
  }

  lemma YieldsHere(decode: (string, nat) -> Decoded, text: string, order: nat, depth: nat, context: Context)
    requires YieldsAs(decode, text, order, depth, context)
    ensures Yields(decode, text, depth, context)
  {
  }

  // ----- the course of a search -----------------------------------------------------------------

  /** An object cut out of a text: the one at this position of the stack in front of the marker at index. */
  datatype Cut = Cut(data: string, index: nat, at: nat, body: string)

  /** A text taken in, at the depth it was met. */
  datatype Text = Text(text: string, depth: nat)

  /** All that was cut out and taken in so far, in order. */
  datatype Course = Course(cuts: seq<Cut>, texts: seq<Text>)

  function CutBytes(cuts: seq<Cut>): nat {
    if cuts == [] then 0
    else
      var last := cuts[|cuts| - 1];
      CutBytes(cuts[..|cuts| - 1]) + |last.body|
  }

  function TextBytes(texts: seq<Text>): nat {
    if texts == [] then 0
    else
      var last := texts[|texts| - 1];
      TextBytes(texts[..|texts| - 1]) + |last.text|
  }

  predicate Met(c: Course, text: string) {
    exists i :: 0 <= i < |c.texts| && c.texts[i].text == text
  }

  ghost predicate OnceEach(texts: seq<Text>) {
    forall i, j :: 0 <= i < j < |texts| ==> texts[i].text != texts[j].text
  }

  /** In one text: markers from the front, and in front of each the innermost object first. */
  predicate Before(a: Cut, b: Cut) {
    a.index < b.index || (a.index == b.index && a.at > b.at)
  }

  ghost predicate InOrder(cuts: seq<Cut>) {
    forall i, j :: 0 <= i < j < |cuts| && cuts[i].data == cuts[j].data ==> Before(cuts[i], cuts[j])
  }

  ghost predicate Genuine(c: Cut) {
    Around(c.data, c.index, c.at, c.at + |c.body|) && c.body == c.data[c.at..c.at + |c.body|]
  }

  /** Within the limits; objects in order, each from a text met; no text twice. */
  ghost predicate Proper(c: Course) {
    && |c.cuts| <= MAX_OBJECTS && CutBytes(c.cuts) <= MAX_OBJECT_BYTES && TextBytes(c.texts) <= MAX_SCAN_BYTES
    && InOrder(c.cuts) && OnceEach(c.texts) && forall i :: 0 <= i < |c.cuts| ==> Genuine(c.cuts[i]) && Met(c, c.cuts[i].data)
  }

  /** What was cut out of this text so far comes before this object. */
  ghost predicate Foremost(c: Course, data: string, index: nat, at: nat) {
    forall i :: 0 <= i < |c.cuts| && c.cuts[i].data == data ==> Before(c.cuts[i], Cut(data, index, at, ""))
  }

  lemma OneMoreText(c: Course, t: Text)
    ensures TextBytes(c.texts + [t]) == TextBytes(c.texts) + |t.text|
    ensures forall s :: Met(c.(texts := c.texts + [t]), s) <==> Met(c, s) || s == t.text
  {
    assert (c.texts + [t])[..|c.texts|] == c.texts;
    forall s ensures Met(c.(texts := c.texts + [t]), s) <==> Met(c, s) || s == t.text {
      if Met(c, s) {
        var i :| 0 <= i < |c.texts| && c.texts[i].text == s;
        assert (c.texts + [t])[i].text == s;
      }
      assert (c.texts + [t])[|c.texts|] == t;
    }
  }

  lemma ProperText(c: Course, t: Text)
    requires Proper(c) && !Met(c, t.text) && TextBytes(c.texts) + |t.text| <= MAX_SCAN_BYTES
    ensures Proper(c.(texts := c.texts + [t]))
  {
    hide Genuine;
    OneMoreText(c, t);
  }

  lemma OneMoreCut(cuts: seq<Cut>, x: Cut)
    ensures CutBytes(cuts + [x]) == CutBytes(cuts) + |x.body|
  {
    assert (cuts + [x])[..|cuts|] == cuts;
  }

  lemma ProperCut(c: Course, x: Cut)
    requires Proper(c) && Genuine(x) && Met(c, x.data) && Foremost(c, x.data, x.index, x.at)
    requires |c.cuts| < MAX_OBJECTS && CutBytes(c.cuts) + |x.body| <= MAX_OBJECT_BYTES
    ensures Proper(c.(cuts := c.cuts + [x]))
  {
    hide Genuine, TextBytes;
    OneMoreCut(c.cuts, x);
    forall s | Met(c, s) ensures Met(c.(cuts := c.cuts + [x]), s) {}
  }

  /** shareContextScanState. */
  class ScanState {
    var remainingBytes: int
    var remainingObjectBytes: int
    var remainingObjects: int
    var seen: set<string>
    ghost var course: Course

    /** Nothing is overdrawn, and what is left and what was spent on the course so far add up to the limits. */
    ghost predicate Valid()
      reads this
    {
      && Proper(course) && (forall t :: t in seen <==> Met(course, t))
      && remainingBytes + TextBytes(course.texts) == MAX_SCAN_BYTES
      && remainingObjectBytes + CutBytes(course.cuts) == MAX_OBJECT_BYTES
      && remainingObjects + |course.cuts| == MAX_OBJECTS
    }

    constructor ()
      ensures Valid() && course == Course([], [])
    {
      remainingBytes, remainingObjectBytes, remainingObjects := MAX_SCAN_BYTES, MAX_OBJECT_BYTES, MAX_OBJECTS;
      seen, course := {}, Course([], []);
    }

    /** A text not too deep, not empty, not seen before and within what is left. */
    predicate Accepts(data: string, depth: nat)
      reads this
    {
      depth <= MAX_DEPTH && data != "" && |data| <= remainingBytes && data !in seen
    }

    /** Takes a text into the search once, unless it is empty or exceeds what is left. */
    method Enter(data: string, depth: nat) returns (ok: bool)
      requires Valid()
      modifies this
      ensures Valid()
      ensures ok <==> old(Accepts(data, depth))
      ensures course == if ok then old(course).(texts := old(course).texts + [Text(data, depth)]) else old(course)
    {
      hide Proper, TextBytes, CutBytes, Met;
      if depth > MAX_DEPTH || |data| == 0 || |data| > remainingBytes { return false; }
      if data in seen { return false; }
      ProperText(course, Text(data, depth));
      OneMoreText(course, Text(data, depth));
      seen := seen + {data};
      remainingBytes := remainingBytes - |data|;
      course := course.(texts := course.texts + [Text(data, depth)]);
      ok := true;
    }

    /** Cuts out the object at a position, if the budgets still allow for one. */
    method TakeObject(data: string, ghost index: nat, at: nat) returns (text: Option<string>)
      requires Valid() && remainingObjects > 0 && remainingObjectBytes > 0
      requires Met(course, data) && FoundAt(data, MARKER, index) && at in Nearest(Opens(data, index)) && Foremost(course, data, index, at)
      modifies this
      ensures Valid() && seen == old(seen)
      ensures text.Some? ==> Balanced(data, at, at + |text.value|) && text.value == data[at..at + |text.value|]
      ensures text.Some? ==> course == old(course).(cuts := old(course).cuts + [Cut(data, index, at, text.value)])
      ensures text.None? ==> course == old(course) && forall end: nat :: Balanced(data, at, end) ==> end - at > old(remainingObjectBytes)
    {
      hide Proper, TextBytes, CutBytes, Met, FoundAt, Opens, Nearest, Foremost, Lex, Depth;
      var end := BalancedObject(data, at, remainingObjectBytes);
      if end.None? { return None; }
      ghost var x := Cut(data, index, at, data[at..end.value]);
      assert Genuine(x);
      ProperCut(course, x);
      OneMoreCut(course.cuts, x);
      SameMet(course, x);
      remainingObjects := remainingObjects - 1;
      remainingObjectBytes := remainingObjectBytes - (end.value - at);
      course := course.(cuts := course.cuts + [x]);
      text := Some(data[at..end.value]);
    }
  }

  lemma SameMet(c: Course, x: Cut)
    ensures forall s :: Met(c.(cuts := c.cuts + [x]), s) <==> Met(c, s)
  {
  }

  // ----- from one moment of it to another -----------------------------------------------------------

  /** Whatever was cut out in between comes from texts met in between, or from these. */
  ghost predicate Onward(c: Course, c': Course, own: set<string>) {
    && c.cuts <= c'.cuts && c.texts <= c'.texts
    && forall i :: |c.cuts| <= i < |c'.cuts| ==> c'.cuts[i].data in own || !Met(c, c'.cuts[i].data)
  }

  lemma MetStill(c: Course, c': Course)
    requires c.texts <= c'.texts
    ensures forall s :: Met(c, s) ==> Met(c', s)
  {
    forall s | Met(c, s) ensures Met(c', s) {
      var i :| 0 <= i < |c.texts| && c.texts[i].text == s;
      assert c'.texts[i].text == s;
    }
  }

  lemma OnwardThen(a: Course, b: Course, c: Course, own: set<string>, also: set<string>)
    requires Onward(a, b, own) && Onward(b, c, also) && forall x :: x in also ==> x in own || !Met(a, x)
    ensures Onward(a, c, own)
  {
    hide Met;
    MetStill(a, b);
    forall i | |a.cuts| <= i < |c.cuts| ensures c.cuts[i].data in own || !Met(a, c.cuts[i].data) {
      if i < |b.cuts| { assert c.cuts[i] == b.cuts[i]; }
    }
  }

  lemma {:induction false} MoreBytes(texts: seq<Text>, n: nat)
    requires n <= |texts|
    ensures TextBytes(texts[..n]) <= TextBytes(texts)
    decreases |texts|
  {
    if n == |texts| {
      assert texts[..n] == texts;
    } else {
      assert texts[..|texts| - 1][..n] == texts[..n];
      MoreBytes(texts[..|texts| - 1], n);
    }
  }

  // ----- an object that leads no further ---------------------------------------------------------------

  /** The text was taken in, or could not be: it is empty, or longer than what is left. */
  predicate Tried(c: Course, text: string) {
    text == "" || TextBytes(c.texts) + |text| > MAX_SCAN_BYTES || Met(c, text)
  }

  /** An object decoded so holds no metadata, and every text embedded in it was tried, unless it lies too deep. */
  predicate Spent(c: Course, depth: nat, decoded: Decoded) {
    match decoded
    case Invalid => true
    case Metadata(_) => false
    case Embedded(candidates) =>
      depth < MAX_DEPTH ==> forall s :: s in candidates ==> Tried(c, s)
  }

  /** Decoded in some order, the object leads no further. */
  ghost predicate Missed(c: Course, depth: nat, decode: (string, nat) -> Decoded, body: string) {
    exists order: nat :: Spent(c, depth, decode(body, order))
  }

  lemma Misses(c: Course, depth: nat, decode: (string, nat) -> Decoded, body: string, order: nat)
    requires Spent(c, depth, decode(body, order))
    ensures Missed(c, depth, decode, body)
  {
  }

  ghost predicate CutMissed(c: Course, decode: (string, nat) -> Decoded, x: Cut) {
    exists d: nat :: Text(x.data, d) in c.texts && Missed(c, d, decode, x.body)
  }

  /** Every object cut out since. */
  ghost predicate AllMissed(since: nat, c: Course, decode: (string, nat) -> Decoded) {
    forall i :: since <= i < |c.cuts| ==> CutMissed(c, decode, c.cuts[i])
  }

  lemma TriedStill(c: Course, c': Course, text: string)
    requires Tried(c, text) && c.texts <= c'.texts
    ensures Tried(c', text)
  {
    hide Met, TextBytes;
    MetStill(c, c');
    MoreBytes(c'.texts, |c.texts|);
    assert c'.texts[..|c.texts|] == c.texts;
  }

  lemma CutMissedStill(c: Course, c': Course, decode: (string, nat) -> Decoded, x: Cut)
    requires c.texts <= c'.texts && CutMissed(c, decode, x)
    ensures CutMissed(c', decode, x)
  {
    hide Tried;
    var d: nat :| Text(x.data, d) in c.texts && Missed(c, d, decode, x.body);
    var order: nat :| Spent(c, d, decode(x.body, order));
    forall s | Tried(c, s) ensures Tried(c', s) { TriedStill(c, c', s); }
    assert Spent(c', d, decode(x.body, order));
    assert Text(x.data, d) in c'.texts by { TextStays(c, c', Text(x.data, d)); }
  }

  lemma TextStays(c: Course, c': Course, t: Text)
    requires c.texts <= c'.texts && t in c.texts
    ensures t in c'.texts
  {
    var i :| 0 <= i < |c.texts| && c.texts[i] == t;
    assert c'.texts[i] == t;
  }

  // ----- where a text comes from ------------------------------------------------------------------------

  /** Embedded in an object cut out of a text one level further up, before anything was cut out of it itself. */
  ghost predicate EmbeddedIn(c: Course, decode: (string, nat) -> Decoded, t: Text) {
    exists i, d: nat, order: nat :: EmbeddedBy(c, decode, t, i, d, order)
  }

  predicate EmbeddedBy(c: Course, decode: (string, nat) -> Decoded, t: Text, i: int, d: nat, order: nat) {
    && 0 <= i < |c.cuts| && Text(c.cuts[i].data, d) in c.texts && t.depth == d + 1
    && decode(c.cuts[i].body, order).Embedded? && t.text in decode(c.cuts[i].body, order).candidates
    && forall j :: 0 <= j < |c.cuts| && c.cuts[j].data == t.text ==> i < j
  }

  /** Every text taken in since is one of these, or embedded in an object. */
  ghost predicate AllEmbedded(since: nat, c: Course, decode: (string, nat) -> Decoded, given: set<Text>) {
    forall i :: since <= i < |c.texts| ==> c.texts[i] in given || EmbeddedIn(c, decode, c.texts[i])
  }

  lemma EmbeddedStill(c: Course, c': Course, decode: (string, nat) -> Decoded, t: Text)
    requires c.cuts <= c'.cuts && c.texts <= c'.texts && EmbeddedIn(c, decode, t)
    ensures EmbeddedIn(c', decode, t)
  {
    var i, d: nat, order: nat :| EmbeddedBy(c, decode, t, i, d, order);
    TextStays(c, c', Text(c.cuts[i].data, d));
    forall j | 0 <= j < |c'.cuts| && c'.cuts[j].data == t.text ensures i < j {
      if j < |c.cuts| { assert c'.cuts[j] == c.cuts[j]; }
    }
    assert EmbeddedBy(c', decode, t, i, d, order);
  }

  // ----- a text searched to the end ---------------------------------------------------------------------

  ghost predicate NoRoom(cuts: seq<Cut>, x: Cut) {
    |cuts| >= MAX_OBJECTS || CutBytes(cuts) + |x.body| > MAX_OBJECT_BYTES
  }

  /** At its place among the objects of its text there was no room for it. */
  ghost predicate PassedOver(c: Course, x: Cut) {
    exists i :: PassedAt(c, x, i)
  }

  ghost predicate PassedAt(c: Course, x: Cut, i: int) {
    && 0 <= i <= |c.cuts| && NoRoom(c.cuts[..i], x)
    && forall j :: 0 <= j < |c.cuts| && c.cuts[j].data == x.data ==> (j < i <==> Before(c.cuts[j], x))
  }

  ghost predicate Handled(c: Course, x: Cut) {
    x in c.cuts || PassedOver(c, x)
  }

  ghost predicate HandledAt(c: Course, data: string, index: nat, p: nat) {
    forall end: nat :: Balanced(data, p, end) ==> Handled(c, Cut(data, index, p, data[p..end]))
  }

  /** Every object around the marker was cut out, or there was no room for it. */
  ghost predicate HandledAround(c: Course, data: string, index: nat) {
    FoundAt(data, MARKER, index) ==> forall p :: p in Nearest(Opens(data, index)) ==> HandledAt(c, data, index, p)
  }

  ghost predicate Searched(c: Course, data: string) {
    forall index: nat :: HandledAround(c, data, index)
  }

  /** Every text taken in since, but for these. */
  ghost predicate AllSearched(since: nat, c: Course, but: set<string>) {
    forall i :: since <= i < |c.texts| && c.texts[i].text !in but ==> Searched(c, c.texts[i].text)
  }

  /** What was cut out since comes from other texts, or later. */
  ghost predicate NoneEarlier(c: Course, c': Course, data: string, index: nat, at: nat) {
    c.cuts <= c'.cuts && forall i :: |c.cuts| <= i < |c'.cuts| && c'.cuts[i].data == data ==> Before(Cut(data, index, at, ""), c'.cuts[i])
  }

  lemma HandledStill(c: Course, c': Course, x: Cut)
    requires Handled(c, x) && NoneEarlier(c, c', x.data, x.index, x.at)
    ensures Handled(c', x)
  {
    if x in c.cuts {
      var i :| 0 <= i < |c.cuts| && c.cuts[i] == x;
      assert c'.cuts[i] == x;
    } else {
      var i :| PassedAt(c, x, i);
      assert c'.cuts[..i] == c.cuts[..i];
      forall j | 0 <= j < |c'.cuts| && c'.cuts[j].data == x.data ensures j < i <==> Before(c'.cuts[j], x) {
        if j < |c.cuts| { assert c'.cuts[j] == c.cuts[j]; }
      }
      assert PassedAt(c', x, i);
    }
  }

  lemma HandledAtStill(c: Course, c': Course, data: string, index: nat, p: nat)
    requires HandledAt(c, data, index, p) && NoneEarlier(c, c', data, index, p)
    ensures HandledAt(c', data, index, p)
  {
    hide Handled, Lex, Depth;
    forall end: nat | Balanced(data, p, end) ensures Handled(c', Cut(data, index, p, data[p..end])) {
      HandledStill(c, c', Cut(data, index, p, data[p..end]));
    }
  }

  lemma HandledAroundStill(c: Course, c': Course, data: string, index: nat)
    requires HandledAround(c, data, index) && forall p :: NoneEarlier(c, c', data, index, p)
    ensures HandledAround(c', data, index)
  {
    hide HandledAt, Opens, Nearest, NoneEarlier;
    if FoundAt(data, MARKER, index) {
      forall p | p in Nearest(Opens(data, index)) ensures HandledAt(c', data, index, p) {
        assert NoneEarlier(c, c', data, index, p);
        HandledAtStill(c, c', data, index, p);
      }
    }
  }

  /** Texts that were searched stay so: what is cut out later comes from others. */
  lemma SearchedStill(c: Course, c': Course, data: string)
    requires Searched(c, data) && c.cuts <= c'.cuts && forall i :: |c.cuts| <= i < |c'.cuts| ==> c'.cuts[i].data != data
    ensures Searched(c', data)
  {
    hide HandledAround;
    forall index: nat ensures HandledAround(c', data, index) {
      forall p ensures NoneEarlier(c, c', data, index, p) {}
      HandledAroundStill(c, c', data, index);
    }
  }

  // ----- a stretch of a search without a find -----------------------------------------------------------

  /** What was cut out led no further, what was taken in was searched to the end and comes from these texts or from
      what was cut out. */
  ghost predicate Failed(c: Course, c': Course, decode: (string, nat) -> Decoded, given: set<Text>, but: set<string>, own: set<string>) {
    && Onward(c, c', own) && AllMissed(|c.cuts|, c', decode) && AllSearched(|c.texts|, c', but) && AllEmbedded(|c.texts|, c', decode, given)
  }

  lemma NothingFailed(c: Course, decode: (string, nat) -> Decoded, given: set<Text>, but: set<string>, own: set<string>)
    ensures Failed(c, c, decode, given, but, own)
  {
  }

  lemma MissedThen(a: Course, b: Course, c: Course, decode: (string, nat) -> Decoded)
    requires a.cuts <= b.cuts <= c.cuts && b.texts <= c.texts && AllMissed(|a.cuts|, b, decode) && AllMissed(|b.cuts|, c, decode)
    ensures AllMissed(|a.cuts|, c, decode)
  {
    hide CutMissed;
    forall i | |a.cuts| <= i < |c.cuts| ensures CutMissed(c, decode, c.cuts[i]) {
      if i < |b.cuts| {
        assert c.cuts[i] == b.cuts[i];
        CutMissedStill(b, c, decode, b.cuts[i]);
      }
    }
  }

  lemma EmbeddedThen(a: Course, b: Course, c: Course, decode: (string, nat) -> Decoded, given: set<Text>)
    requires a.texts <= b.texts <= c.texts && b.cuts <= c.cuts && AllEmbedded(|a.texts|, b, decode, given) && AllEmbedded(|b.texts|, c, decode, given)
    ensures AllEmbedded(|a.texts|, c, decode, given)
  {
    hide EmbeddedIn;
    forall i | |a.texts| <= i < |c.texts| ensures c.texts[i] in given || EmbeddedIn(c, decode, c.texts[i]) {
      if i < |b.texts| {
        assert c.texts[i] == b.texts[i];
        if b.texts[i] !in given { EmbeddedStill(b, c, decode, b.texts[i]); }
      }
    }
  }

  lemma NotMetBefore(a: Course, c: Course, i: nat)
    requires a.texts <= c.texts && OnceEach(c.texts) && |a.texts| <= i < |c.texts|
    ensures !Met(a, c.texts[i].text)
  {
    forall j | 0 <= j < |a.texts| ensures a.texts[j].text != c.texts[i].text { assert c.texts[j] == a.texts[j]; }
  }

  lemma SearchedThen(a: Course, b: Course, c: Course, but: set<string>, also: set<string>)
    requires a.texts <= b.texts <= c.texts && OnceEach(c.texts) && Onward(b, c, also) && forall x :: x in also ==> x in but || Met(a, x)
    requires AllSearched(|a.texts|, b, but) && AllSearched(|b.texts|, c, {})
    ensures AllSearched(|a.texts|, c, but)
  {
    hide Searched;
    forall i | |a.texts| <= i < |c.texts| && c.texts[i].text !in but ensures Searched(c, c.texts[i].text) {
      if i < |b.texts| {
        var t := b.texts[i].text;
        assert c.texts[i] == b.texts[i] && Met(b, t);
        NotMetBefore(a, c, i);
        SearchedStill(b, c, t);
      }
    }
  }

  lemma FailedThen(a: Course, b: Course, c: Course, decode: (string, nat) -> Decoded, given: set<Text>, but: set<string>, own: set<string>, also: set<string>)
    requires Failed(a, b, decode, given, but, own) && Failed(b, c, decode, given, {}, also) && OnceEach(c.texts)
    requires forall x :: x in also ==> (x in own || !Met(a, x)) && (x in but || Met(a, x))
    ensures Failed(a, c, decode, given, but, own)
  {
    hide AllMissed, AllSearched, AllEmbedded, OnceEach, Met;
    OnwardThen(a, b, c, own, also);
    MissedThen(a, b, c, decode);
    EmbeddedThen(a, b, c, decode, given);
    SearchedThen(a, b, c, but, also);
  }

  /** The text just taken in is all that is new. */
  lemma TakenIn(c: Course, decode: (string, nat) -> Decoded, t: Text)
    requires !Met(c, t.text)
    ensures var c' := c.(texts := c.texts + [t]); Failed(c, c', decode, {t}, {t.text}, {}) && t in c'.texts
    ensures forall index, at :: Proper(c) ==> Foremost(c.(texts := c.texts + [t]), t.text, index, at)
  {
    assert (c.texts + [t])[|c.texts|] == t;
  }

  /** And then that it was searched itself. */
  lemma SearchedItself(c: Course, c': Course, decode: (string, nat) -> Decoded, t: Text)
    requires Failed(c, c', decode, {t}, {t.text}, {}) && Searched(c', t.text)
    ensures Failed(c, c', decode, {t}, {}, {})
  {
    hide Searched, AllMissed, AllEmbedded, Onward;
  }

  // ----- nothing left ---------------------------------------------------------------------------------------

  ghost predicate UsedUp(c: Course) {
    |c.cuts| >= MAX_OBJECTS || CutBytes(c.cuts) >= MAX_OBJECT_BYTES
  }

  lemma PassedOverAll(c: Course, data: string, index: nat, p: nat)
    requires UsedUp(c) && Foremost(c, data, index, p)
    ensures HandledAt(c, data, index, p)
  {
    hide CutBytes;
    forall end: nat | Balanced(data, p, end) ensures Handled(c, Cut(data, index, p, data[p..end])) {
      assert c.cuts[..|c.cuts|] == c.cuts;
      assert PassedAt(c, Cut(data, index, p, data[p..end]), |c.cuts|);
    }
  }

  /** Everything cut out of the text so far comes before the next marker. */
  ghost predicate Behind(c: Course, data: string, index: nat) {
    forall i :: 0 <= i < |c.cuts| && c.cuts[i].data == data ==> c.cuts[i].index < index
  }

  /** No marker further on has anything that would still fit. */
  lemma NoneFurther(c: Course, data: string, from: nat)
    requires UsedUp(c) && Behind(c, data, from)
    ensures forall index: nat :: from <= index ==> HandledAround(c, data, index)
  {
    hide HandledAt, UsedUp, Opens, Nearest;
    forall index: nat, p: nat | from <= index ensures HandledAt(c, data, index, p) { PassedOverAll(c, data, index, p); }
  }

  lemma NoMarkers(c: Course, data: string)
    ensures forall index: nat :: !FoundAt(data, MARKER, index) ==> HandledAround(c, data, index)
  {
  }

  lemma NoMarkerBeyond(data: string)
    ensures forall index: nat :: |data| <= index ==> !FoundAt(data, MARKER, index)
  {
  }

  // ----- the search -------------------------------------------------------------------------------------------

  /** The part of a text already searched, up to a marker position. */
  ghost predicate SearchedTo(c: Course, data: string, upTo: nat) {
    Behind(c, data, upTo) && forall index: nat :: index < upTo ==> HandledAround(c, data, index)
  }

  /** What was cut out of this text since belongs to this marker. */
  ghost predicate OnlyAt(c: Course, c': Course, data: string, index: nat) {
    c.cuts <= c'.cuts && forall i :: |c.cuts| <= i < |c'.cuts| && c'.cuts[i].data == data ==> c'.cuts[i].index == index
  }

  lemma SearchedOn(c: Course, c': Course, data: string, from: nat, index: nat)
    requires SearchedTo(c, data, from) && OnlyAt(c, c', data, index) && HandledAround(c', data, index)
    requires from <= index && forall j: nat :: from <= j < index ==> !FoundAt(data, MARKER, j)
    requires forall j: nat :: index < j < index + 10 ==> !FoundAt(data, MARKER, j)
    ensures SearchedTo(c', data, index + 10)
  {
    hide HandledAround;
    NoMarkers(c', data);
    forall j: nat | j < index + 10 ensures HandledAround(c', data, j) {
      if j < from {
        forall p ensures NoneEarlier(c, c', data, j, p) {}
        HandledAroundStill(c, c', data, j);
      }
    }
    forall i | 0 <= i < |c'.cuts| && c'.cuts[i].data == data ensures c'.cuts[i].index < index + 10 {
      if i < |c.cuts| { assert c'.cuts[i] == c.cuts[i]; }
    }
  }

  lemma NothingSearched(c: Course, t: Text)
    requires Proper(c) && !Met(c, t.text)
    ensures SearchedTo(c.(texts := c.texts + [t]), t.text, 0)
  {
  }

  lemma SearchedAll(c: Course, data: string, upTo: nat)
    requires SearchedTo(c, data, upTo) && (UsedUp(c) || forall j: nat :: upTo <= j ==> !FoundAt(data, MARKER, j))
    ensures Searched(c, data)
  {
    hide HandledAround, UsedUp;
    if UsedUp(c) { NoneFurther(c, data, upTo); } else { NoMarkers(c, data); }
  }

  /** extractShareContextAtDepth: from every marker outwards, innermost object first, and into embedded
      texts. What it returns is there. It returns nothing only after this text and every one embedded in it at any
      depth was searched to the end; and however the page is made, no budget is ever overdrawn. */
  method ExtractAtDepth(data: string, depth: nat, state: ScanState, decode: (string, nat) -> Decoded) returns (r: Option<Context>, markerFound: bool)
    requires state.Valid()
    modifies state
    ensures state.Valid()
    ensures r.Some? ==> FoundIn(decode, data, depth, r.value)
    ensures markerFound <==> old(state.Accepts(data, depth)) && exists index: nat :: FoundAt(data, MARKER, index)
    ensures old(state.Accepts(data, depth)) && r.None? ==> Text(data, depth) in state.course.texts && old(state.course).texts + [Text(data, depth)] <= state.course.texts
    ensures !old(state.Accepts(data, depth)) ==> r.None? && state.course == old(state.course)
    ensures r.None? ==> Failed(old(state.course), state.course, decode, {Text(data, depth)}, {}, {})
    decreases MAX_DEPTH - depth, 6
  {
    hide Lex, Depth, Opens, Nearest, Yields, FoundAt, Searched, Failed, SearchedTo, HandledAround, Proper, TextBytes, CutBytes, UsedUp, OnlyAt;
    markerFound := false;
    ghost var before := state.course;
    var entered := state.Enter(data, depth);
    if !entered {
      NothingFailed(before, decode, {Text(data, depth)}, {}, {});
      return None, false;
    }
    TakenIn(before, decode, Text(data, depth));
    NothingSearched(before, Text(data, depth));
    var searchFrom := 0;
    while searchFrom < |data|
      invariant state.Valid() && Failed(before, state.course, decode, {Text(data, depth)}, {data}, {}) && before.texts + [Text(data, depth)] <= state.course.texts
      invariant markerFound <==> exists index: nat :: index < searchFrom && FoundAt(data, MARKER, index)
      invariant SearchedTo(state.course, data, searchFrom)
      decreases |data| - searchFrom
    {
      ghost var mid := state.course;
      var index := IndexFrom(data, MARKER, searchFrom);
      if index.None? {
        SearchedAll(mid, data, searchFrom);
        SearchedItself(before, mid, decode, Text(data, depth));
        return None, markerFound;
      }
      markerFound := true;
      assert Text(data, depth) in state.course.texts by { assert state.course.texts[|before.texts|] == Text(data, depth); }
      BehindAll(mid, data, searchFrom, index.value);
      var found, exhausted := ExtractAround(data, index.value, depth, state, decode);
      if found.Some? { return found, markerFound; }
      FailedFurther(before, mid, state.course, decode, Text(data, depth));
      MarkersApart(data, index.value);
      SearchedOn(mid, state.course, data, searchFrom, index.value);
      if exhausted {
        SearchedAll(state.course, data, index.value + 10);
        SearchedItself(before, state.course, decode, Text(data, depth));
        return None, markerFound;
      }
      searchFrom := index.value + 10;
    }
    NoMarkerBeyond(data);
    SearchedAll(state.course, data, searchFrom);
    SearchedItself(before, state.course, decode, Text(data, depth));
    r := None;
  }

  lemma BehindAll(c: Course, data: string, upTo: nat, index: nat)
    requires SearchedTo(c, data, upTo) && upTo <= index
    ensures Behind(c, data, index)
  {
    hide HandledAround;
  }

  lemma FailedFurther(before: Course, mid: Course, now: Course, decode: (string, nat) -> Decoded, t: Text)
    requires Failed(before, mid, decode, {t}, {t.text}, {}) && Failed(mid, now, decode, {}, {}, {t.text}) && Proper(now)
    requires !Met(before, t.text) && before.texts + [t] <= mid.texts
    ensures Failed(before, now, decode, {t}, {t.text}, {}) && before.texts + [t] <= now.texts
  {
    hide AllMissed, AllSearched, AllEmbedded, Met, Genuine;
    MoreGiven(|mid.texts|, now, decode, {}, {t});
    FailedThen(before, mid, now, decode, {t}, {t.text}, {}, {t.text});
  }

  /** The objects around one marker, innermost first. */
  method ExtractAround(data: string, index: nat, depth: nat, state: ScanState, decode: (string, nat) -> Decoded) returns (r: Option<Context>, exhausted: bool)
    requires state.Valid() && FoundAt(data, MARKER, index) && depth <= MAX_DEPTH && Text(data, depth) in state.course.texts && Behind(state.course, data, index)
    modifies state
    ensures state.Valid()
    ensures r.Some? ==> exists p: nat, end: nat :: Around(data, index, p, end) && Yields(decode, data[p..end], depth, r.value)
    ensures exhausted ==> r.None? && UsedUp(state.course)
    ensures r.None? ==> HandledAround(state.course, data, index) && OnlyAt(old(state.course), state.course, data, index)
    ensures r.None? ==> Failed(old(state.course), state.course, decode, {}, {}, {data})
    decreases MAX_DEPTH - depth, 5
  {
    hide Lex, Depth, Opens, Failed, HandledAt, Proper, TextBytes, CutBytes, Met;
    ghost var before := state.course;
    NothingFailed(before, decode, {}, {}, {data});
    var opens := OpenObjectStack(data, index);
    if |opens| > MAX_STARTS { opens := opens[|opens| - MAX_STARTS..]; }
    assert opens == Nearest(Opens(data, index));
    NearestAscend(data, index);
    var i := |opens|;
    while i > 0
      invariant 0 <= i <= |opens| && state.Valid() && Failed(before, state.course, decode, {}, {}, {data}) && OnlyAt(before, state.course, data, index)
      invariant forall j :: i <= j < |opens| ==> HandledAt(state.course, data, index, opens[j])
      invariant forall a :: 0 <= a < i ==> Foremost(state.course, data, index, opens[a])
      invariant Text(data, depth) in state.course.texts
      decreases i
    {
      i := i - 1;
      ghost var mid := state.course;
      if state.remainingObjects <= 0 || state.remainingObjectBytes <= 0 {
        forall j | 0 <= j <= i ensures HandledAt(mid, data, index, opens[j]) { PassedOverAll(mid, data, index, opens[j]); }
        assert HandledAround(mid, data, index);
        return None, true;
      }
      var found := TryObject(data, index, opens[i], depth, state, decode);
      if found.Some? { return found, false; }
      FailedAround(before, mid, state.course, decode, Text(data, depth));
      forall j | i < j < |opens| ensures HandledAt(state.course, data, index, opens[j]) {
        assert NoneEarlier(mid, state.course, data, index, opens[j]);
        HandledAtStill(mid, state.course, data, index, opens[j]);
      }
      forall a | 0 <= a < i ensures Foremost(state.course, data, index, opens[a]) { ForemostStill(mid, state.course, data, index, opens[i], opens[a]); }
      OnlyAtThen(before, mid, state.course, data, index, opens[i]);
    }
    assert HandledAround(state.course, data, index);
    return None, false;
  }

  lemma NearestAscend(data: string, index: nat)
    requires index <= |data|
    ensures forall a, b :: 0 <= a < b < |Nearest(Opens(data, index))| ==> Nearest(Opens(data, index))[a] < Nearest(Opens(data, index))[b]
  {
    OpensAscend(data, index);
  }

  lemma FailedAround(before: Course, mid: Course, now: Course, decode: (string, nat) -> Decoded, t: Text)
    requires Failed(before, mid, decode, {}, {}, {t.text}) && Failed(mid, now, decode, {}, {}, {t.text}) && Proper(now) && t in before.texts
    ensures Failed(before, now, decode, {}, {}, {t.text})
  {
    hide AllMissed, AllSearched, AllEmbedded, Genuine;
    var i :| 0 <= i < |before.texts| && before.texts[i] == t;
    assert Met(before, t.text);
    FailedThen(before, mid, now, decode, {}, {}, {t.text}, {t.text});
  }

  /** What was cut out of this text since is the object at this position. */
  ghost predicate OnlyThis(c: Course, c': Course, data: string, index: nat, at: nat) {
    c.cuts <= c'.cuts && forall i :: |c.cuts| <= i < |c'.cuts| && c'.cuts[i].data == data ==> c'.cuts[i].index == index && c'.cuts[i].at == at
  }

  lemma ForemostStill(c: Course, c': Course, data: string, index: nat, at: nat, p: nat)
    requires OnlyThis(c, c', data, index, at) && Foremost(c, data, index, p) && p < at
    ensures Foremost(c', data, index, p)
  {
    forall i | 0 <= i < |c'.cuts| && c'.cuts[i].data == data ensures Before(c'.cuts[i], Cut(data, index, p, "")) {
      if i < |c.cuts| { assert c'.cuts[i] == c.cuts[i]; }
    }
  }

  lemma OnlyAtThen(a: Course, b: Course, c: Course, data: string, index: nat, at: nat)
    requires OnlyAt(a, b, data, index) && OnlyThis(b, c, data, index, at)
    ensures OnlyAt(a, c, data, index)
  {
    forall i | |a.cuts| <= i < |c.cuts| && c.cuts[i].data == data ensures c.cuts[i].index == index {
      if i < |b.cuts| { assert c.cuts[i] == b.cuts[i]; }
    }
  }

  /** Nothing that starts there fits what is left. */
  lemma TooLong(c: Course, data: string, index: nat, at: nat)
    requires Foremost(c, data, index, at) && forall end: nat :: Balanced(data, at, end) ==> CutBytes(c.cuts) + (end - at) > MAX_OBJECT_BYTES
    ensures HandledAt(c, data, index, at)
  {
    hide CutBytes, Lex, Depth;
    forall end: nat | Balanced(data, at, end) ensures Handled(c, Cut(data, index, at, data[at..end])) {
      assert c.cuts[..|c.cuts|] == c.cuts;
      assert PassedAt(c, Cut(data, index, at, data[at..end]), |c.cuts|);
    }
  }

  lemma CutIsHandled(c: Course, data: string, index: nat, at: nat, body: string)
    requires Balanced(data, at, at + |body|) && body == data[at..at + |body|] && Cut(data, index, at, body) in c.cuts
    ensures HandledAt(c, data, index, at)
  {
    hide Lex, Depth;
    forall end: nat | Balanced(data, at, end) ensures Handled(c, Cut(data, index, at, data[at..end])) { BalancedOnce(data, at, end, at + |body|); }
  }

  /** One object: its own metadata, or what texts embedded in it yield. */
  method TryObject(data: string, index: nat, at: nat, depth: nat, state: ScanState, decode: (string, nat) -> Decoded) returns (r: Option<Context>)
    requires state.Valid() && state.remainingObjects > 0 && state.remainingObjectBytes > 0
    requires FoundAt(data, MARKER, index) && at in Nearest(Opens(data, index)) && depth <= MAX_DEPTH
    requires Text(data, depth) in state.course.texts && Foremost(state.course, data, index, at)
    modifies state
    ensures state.Valid()
    ensures r.Some? ==> exists end: nat :: Around(data, index, at, end) && Yields(decode, data[at..end], depth, r.value)
    ensures r.None? ==> HandledAt(state.course, data, index, at) && OnlyThis(old(state.course), state.course, data, index, at)
    ensures r.None? ==> Failed(old(state.course), state.course, decode, {}, {}, {data}) && Text(data, depth) in state.course.texts
    decreases MAX_DEPTH - depth, 4
  {
    hide Lex, Depth, Opens, Nearest, FoundAt, FoundIn, Failed, HandledAt, Proper, TextBytes, CutBytes, Foremost, Met, OnlyThis;
    ghost var before := state.course;
    assert Met(before, data) by { TextMet(before, Text(data, depth)); }
    var text := state.TakeObject(data, index, at);
    ghost var taken := state.course;
    if text.None? {
      TooLong(before, data, index, at);
      NothingFailed(before, decode, {}, {}, {data});
      assert OnlyThis(before, before, data, index, at) by { NothingCut(before, data, index, at); }
      return None;
    }
    assert Around(data, index, at, at + |text.value|);
    ghost var x := Cut(data, index, at, text.value);
    var order: nat := *;
    match decode(text.value, order) {
      case Invalid =>
        r := None;
        NothingFailed(taken, decode, {}, {}, {});
        ObjectFailed(before, taken, decode, x, depth, order);
      case Metadata(context) =>
        r := Some(context);
        YieldsHere(decode, text.value, order, depth, context);
      case Embedded(candidates) =>
        r := None;
        if depth < MAX_DEPTH {
          r := SearchEmbedded(candidates, depth, state, decode);
          if r.Some? { YieldsHere(decode, text.value, order, depth, r.value); }
        } else {
          NothingFailed(taken, decode, Inside(decode(text.value, order), depth), {}, {});
        }
        if r.None? { ObjectFailed(before, state.course, decode, x, depth, order); }
    }
  }

  /** The texts embedded in an object, one level further down. */
  function Inside(decoded: Decoded, depth: nat): set<Text> {
    match decoded
    case Embedded(candidates) => set s | s in candidates :: Text(s, depth + 1)
    case _ => {}
  }

  /** The object was cut out, and it and whatever was found in it led no further. */
  lemma ObjectFailed(before: Course, now: Course, decode: (string, nat) -> Decoded, x: Cut, depth: nat, order: nat)
    requires Failed(before.(cuts := before.cuts + [x]), now, decode, Inside(decode(x.body, order), depth), {}, {})
    requires Spent(now, depth, decode(x.body, order)) && Text(x.data, depth) in before.texts && Proper(before) && Proper(now)
    requires Balanced(x.data, x.at, x.at + |x.body|) && x.body == x.data[x.at..x.at + |x.body|]
    ensures HandledAt(now, x.data, x.index, x.at) && OnlyThis(before, now, x.data, x.index, x.at)
    ensures Failed(before, now, decode, {}, {}, {x.data}) && Text(x.data, depth) in now.texts
  {
    hide Spent, Lex, Depth, Balanced, Searched, Proper, AllMissed, AllSearched, AllEmbedded, Met, HandledAt, OnlyThis;
    var taken := before.(cuts := before.cuts + [x]);
    TextMet(before, Text(x.data, depth));
    TextStays(taken, now, Text(x.data, depth));
    ObjectOnward(before, now, x);
    ObjectMissed(before, now, decode, x, depth, order);
    assert OnceEach(now.texts) by { ProperTexts(now); }
    ObjectEmbeds(before, now, decode, x, depth, order);
    assert x in now.cuts by { assert now.cuts[|before.cuts|] == x; }
    CutIsHandled(now, x.data, x.index, x.at, x.body);
  }

  lemma ProperTexts(c: Course)
    requires Proper(c)
    ensures OnceEach(c.texts)
  {
  }

  lemma ObjectOnward(before: Course, now: Course, x: Cut)
    requires Onward(before.(cuts := before.cuts + [x]), now, {}) && Met(before, x.data)
    ensures Onward(before, now, {x.data}) && OnlyThis(before, now, x.data, x.index, x.at)
  {
    hide Met;
    var taken := before.(cuts := before.cuts + [x]);
    SameMet(before, x);
    assert now.cuts[|before.cuts|] == x;
    OnwardThen(before, taken, now, {x.data}, {});
  }

  lemma ObjectMissed(before: Course, now: Course, decode: (string, nat) -> Decoded, x: Cut, depth: nat, order: nat)
    requires before.cuts + [x] <= now.cuts && AllMissed(|before.cuts| + 1, now, decode)
    requires Spent(now, depth, decode(x.body, order)) && Text(x.data, depth) in now.texts
    ensures AllMissed(|before.cuts|, now, decode)
  {
    hide Spent;
    assert now.cuts[|before.cuts|] == x;
    Misses(now, depth, decode, x.body, order);
    assert CutMissed(now, decode, x);
  }

  lemma ObjectEmbeds(before: Course, now: Course, decode: (string, nat) -> Decoded, x: Cut, depth: nat, order: nat)
    requires before.cuts + [x] <= now.cuts && before.texts <= now.texts && Text(x.data, depth) in now.texts
    requires AllEmbedded(|before.texts|, now, decode, Inside(decode(x.body, order), depth))
    requires Proper(before) && OnceEach(now.texts) && Met(before, x.data)
    ensures AllEmbedded(|before.texts|, now, decode, {})
  {
    hide Met, Genuine, OnceEach, CutBytes, TextBytes;
    assert now.cuts[|before.cuts|] == x;
    forall i | |before.texts| <= i < |now.texts| ensures EmbeddedIn(now, decode, now.texts[i]) {
      if now.texts[i] in Inside(decode(x.body, order), depth) {
        NotMetBefore(before, now, i);
        forall j | 0 <= j <= |before.cuts| ensures now.cuts[j].data != now.texts[i].text {
          assert j < |before.cuts| ==> now.cuts[j] == before.cuts[j];
        }
        assert EmbeddedBy(now, decode, now.texts[i], |before.cuts|, depth, order);
      }
    }
  }

  lemma TextMet(c: Course, t: Text)
    requires t in c.texts
    ensures Met(c, t.text)
  {
    var i :| 0 <= i < |c.texts| && c.texts[i] == t;
  }

  lemma NothingCut(c: Course, data: string, index: nat, at: nat)
    ensures OnlyThis(c, c, data, index, at)
  {
  }

  /** The texts embedded in one object, until one yields a context. */
  method SearchEmbedded(candidates: seq<string>, depth: nat, state: ScanState, decode: (string, nat) -> Decoded) returns (r: Option<Context>)
    requires state.Valid() && depth < MAX_DEPTH
    modifies state
    ensures state.Valid()
    ensures r.Some? ==> exists j :: 0 <= j < |candidates| && FoundIn(decode, candidates[j], depth + 1, r.value)
    ensures r.None? ==> Spent(state.course, depth, Embedded(candidates)) && Failed(old(state.course), state.course, decode, Inside(Embedded(candidates), depth), {}, {})
    decreases MAX_DEPTH - depth, 3
  {
    hide Failed, FoundIn, Proper, TextBytes, CutBytes, Tried, Met;
    ghost var before := state.course;
    NothingFailed(before, decode, Inside(Embedded(candidates), depth), {}, {});
    var j := 0;
    while j < |candidates|
      invariant 0 <= j <= |candidates| && state.Valid() && Failed(before, state.course, decode, Inside(Embedded(candidates), depth), {}, {})
      invariant forall i :: 0 <= i < j ==> Tried(state.course, candidates[i])
      decreases |candidates| - j
    {
      ghost var mid, left := state.course, state.remainingBytes;
      var nested, marker := ExtractAtDepth(candidates[j], depth + 1, state, decode);
      if nested.Some? { return nested; }
      assert candidates[j] in candidates && Text(candidates[j], depth + 1) in Inside(Embedded(candidates), depth);
      TextFailed(before, mid, state.course, decode, Inside(Embedded(candidates), depth), Text(candidates[j], depth + 1));
      forall i | 0 <= i < j ensures Tried(state.course, candidates[i]) { TriedStill(mid, state.course, candidates[i]); }
      assert Tried(state.course, candidates[j]) by { TriedNow(state.course, left, Text(candidates[j], depth + 1)); }
      j := j + 1;
    }
    forall s | s in candidates ensures Tried(state.course, s) {}
    r := None;
  }

  lemma TriedNow(c: Course, left: int, t: Text)
    requires t in c.texts || t.text == "" || Met(c, t.text) || (|t.text| > left && left + TextBytes(c.texts) == MAX_SCAN_BYTES)
    ensures Tried(c, t.text)
  {
    if t in c.texts { TextMet(c, t); }
  }

  lemma TextFailed(before: Course, mid: Course, now: Course, decode: (string, nat) -> Decoded, given: set<Text>, t: Text)
    requires Failed(before, mid, decode, given, {}, {}) && Failed(mid, now, decode, {t}, {}, {}) && Proper(now) && t in given
    ensures Failed(before, now, decode, given, {}, {}) && mid.texts <= now.texts
  {
    hide AllMissed, AllSearched, AllEmbedded, Genuine, Met;
    MoreGiven(|mid.texts|, now, decode, {t}, given);
    FailedThen(before, mid, now, decode, given, {}, {}, {});
  }

  lemma MoreGiven(since: nat, c: Course, decode: (string, nat) -> Decoded, given: set<Text>, more: set<Text>)
    requires AllEmbedded(since, c, decode, given) && given <= more
    ensures AllEmbedded(since, c, decode, more)
  {
  }

  // ----- the whole page ------------------------------------------------------------------------------------------

  datatype Extraction = Extracted(context: Context) | AuthRequired(markerFound: bool)

  /** A course that searched the page in vain: within the limits, every text in it is the page or embedded in an object
      cut out of another one before, every object cut out led no further, and every other object around a marker of any of the
      texts found no room at its place. */
  ghost predicate InVain(decode: (string, nat) -> Decoded, page: string, c: Course) {
    && Proper(c) && AllMissed(0, c, decode) && AllSearched(0, c, {}) && AllEmbedded(0, c, decode, {Text(page, 0)})
    && (page != "" && |page| <= MAX_SCAN_BYTES ==> Text(page, 0) in c.texts)
  }

  /** extractShareContext: the metadata of the page, or a search in vain. */
  method ExtractShareContext(page: string, decode: (string, nat) -> Decoded) returns (r: Extraction, ghost course: Course)
    ensures r.Extracted? ==> FoundIn(decode, page, 0, r.context)
    ensures r.AuthRequired? ==> (r.markerFound <==> page != "" && |page| <= MAX_SCAN_BYTES && exists index: nat :: FoundAt(page, MARKER, index))
    ensures r.AuthRequired? ==> InVain(decode, page, course)
  {
    hide FoundIn, AllMissed, AllSearched, AllEmbedded;
    var state := new ScanState();
    var found, markerFound := ExtractAtDepth(page, 0, state, decode);
    course := state.course;
    r := if found.Some? then Extracted(found.value) else AuthRequired(markerFound);
  }

  /** So an object around a marker of the page that decodes to metadata is missed for lack of room only. */
  lemma MetadataIsMissedForRoom(decode: (string, nat) -> Decoded, page: string, c: Course, index: nat, p: nat, end: nat)
    requires InVain(decode, page, c) && page != "" && |page| <= MAX_SCAN_BYTES && Around(page, index, p, end)
    requires forall order: nat :: decode(page[p..end], order).Metadata?
    ensures PassedOver(c, Cut(page, index, p, page[p..end]))
  {
    hide Lex, Depth, Proper, Opens, Nearest;
    var x := Cut(page, index, p, page[p..end]);
    assert Searched(c, page) by { PageSearched(decode, page, c); }
    assert HandledAround(c, page, index) && HandledAt(c, page, index, p);
    assert Handled(c, x);
    CutsMissed(c, decode, x);
    NeverMissed(c, decode, x);
  }

  lemma CutsMissed(c: Course, decode: (string, nat) -> Decoded, x: Cut)
    requires AllMissed(0, c, decode)
    ensures x in c.cuts ==> CutMissed(c, decode, x)
  {
    hide CutMissed;
  }

  lemma PageSearched(decode: (string, nat) -> Decoded, page: string, c: Course)
    requires AllSearched(0, c, {}) && Text(page, 0) in c.texts
    ensures Searched(c, page)
  {
    hide Searched;
    var i :| 0 <= i < |c.texts| && c.texts[i] == Text(page, 0);
  }

  lemma NeverMissed(c: Course, decode: (string, nat) -> Decoded, x: Cut)
    requires forall order: nat :: decode(x.body, order).Metadata?
    ensures !CutMissed(c, decode, x)
  {
  }
}
