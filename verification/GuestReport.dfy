/** The checker of the identity block a guest prints on its console: one BEGIN, one later END,
    and between them at most 64 lines "LIMIAR_DMI key=value" with distinct keys. */
module GuestReport {
  import opened Wrappers
  import opened Text

  const BEGIN := "LIMIAR_DMI_BEGIN"
  const END := "LIMIAR_DMI_END"
  const FIELD := "LIMIAR_DMI "
  const MAX_FIELDS := 64
  const MAX_TRANSCRIPT := 8 * 1024 * 1024

  type Fields = map<string, string>

  // ---- Lines ------------------------------------------------------------------------------

  function TrimReturns(line: string): string {
    if line != "" && line[|line| - 1] == '\r' then TrimReturns(line[..|line| - 1]) else line
  }

  function TrimAll(lines: seq<string>): (r: seq<string>)
    ensures |r| == |lines|
    ensures forall i | 0 <= i < |lines| :: r[i] == TrimReturns(lines[i])
  {
    seq(|lines|, i requires 0 <= i < |lines| => TrimReturns(lines[i]))
  }

  /** The lines of a text; a final line terminator does not start another line. */
  function Lines(text: string): seq<string> {
    var pieces := Split(text, '\n');
    TrimAll(if pieces[|pieces| - 1] == "" then pieces[..|pieces| - 1] else pieces)
  }

  /** A text made of whole lines. */
  function TextOf(lines: seq<string>): string {
    if lines == [] then "" else lines[0] + ['\n'] + TextOf(lines[1..])
  }

  lemma {:induction false} SplitTextOf(lines: seq<string>)
    requires forall l | l in lines :: '\n' !in l
    ensures Split(TextOf(lines), '\n') == lines + [""]
  {
    if lines == [] {
      IndexOfAbsent("", '\n');
    } else {
      var rest := TextOf(lines[1..]);
      var text := TextOf(lines);
      IndexOfConcat(lines[0], '\n', rest);
      assert text[..|lines[0]|] == lines[0] && text[|lines[0]| + 1..] == rest;
      SplitTextOf(lines[1..]);
      assert [lines[0]] + (lines[1..] + [""]) == lines + [""];
    }
  }

  predicate PlainLine(line: string) {
    '\n' !in line && (line != "" ==> line[|line| - 1] != '\r')
  }

  lemma LinesOfTextOf(lines: seq<string>)
    requires forall l | l in lines :: PlainLine(l)
    ensures Lines(TextOf(lines)) == lines
  {
    SplitTextOf(lines);
    assert (lines + [""])[..|lines|] == lines;
    forall i | 0 <= i < |lines| ensures TrimReturns(lines[i]) == lines[i] {
      assert lines[i] in lines;
    }
  }

  // ---- One field --------------------------------------------------------------------------

  predicate ValidKey(key: string) {
    && 1 <= |key| <= 64
    && forall k | 0 <= k < |key| :: 'a' <= key[k] <= 'z' || key[k] == '_'
  }

  predicate ValidValue(value: string) {
    |value| <= 256 && '\0' !in value
  }

  /** What one line means to the checker; a field line that does not parse carries None. */
  datatype Event = Begin | End | Field(parsed: Option<Pair<string, string>>) | Noise

  function ParseField(text: string): Option<Pair<string, string>> {
    var field :- SplitOnce(text, '=');
    if ValidKey(field.first) && ValidValue(field.second) then Some(field) else None
  }

  function EventOf(line: string): Event {
    if line == BEGIN then Begin
    else if line == END then End
    else if StartsWith(line, FIELD) then Field(ParseField(line[|FIELD|..]))
    else Noise
  }

  function EventsOf(lines: seq<string>): (events: seq<Event>)
    ensures |events| == |lines|
    ensures forall i | 0 <= i < |lines| :: events[i] == EventOf(lines[i])
  {
    seq(|lines|, i requires 0 <= i < |lines| => EventOf(lines[i]))
  }

  // ---- The scan ---------------------------------------------------------------------------

  datatype Scan = Scan(started: bool, finished: bool, observed: Fields)

  /** One turn of the checker's loop; None is a rejected transcript. */
  function ScanEvent(s: Scan, event: Event): Option<Scan> {
    match event
    case Begin => if s.started then None else Some(s.(started := true))
    case End => if s.started && !s.finished then Some(s.(finished := true)) else None
    case Noise => Some(s)
    case Field(parsed) =>
      if !s.started || s.finished then None else
        var field :- parsed;
        if field.first in s.observed then None else
          var observed := s.observed[field.first := field.second];
          if |observed| <= MAX_FIELDS then Some(s.(observed := observed)) else None
  }

  /** The scan of the first n events. */
  function ScanTo(events: seq<Event>, n: nat): Option<Scan>
    requires n <= |events|
  {
    if n == 0 then Some(Scan(false, false, map[])) else
      var s :- ScanTo(events, n - 1);
      ScanEvent(s, events[n - 1])
  }

  predicate SameValue(field: string, expected: string, value: string) {
    if field == "product_uuid" then Lower(value) == Lower(expected) else value == expected
  }

  predicate Matches(field: string, expected: string, observed: Fields) {
    field in observed && SameValue(field, expected, observed[field])
  }

  datatype Verification = Verification(passed: bool, observed: Fields)

  /** None is an error: nothing to verify, a transcript over the limit or a malformed block. */
  function Check(expected: Fields, transcript: string): Option<Verification> {
    if expected == map[] || |transcript| > MAX_TRANSCRIPT then None else
      var events := EventsOf(Lines(transcript));
      var s :- ScanTo(events, |events|);
      if !s.started || !s.finished then None
      else Some(Verification(forall f | f in expected :: Matches(f, expected[f], s.observed), s.observed))
  }

  lemma {:induction false} ScanFails(events: seq<Event>, n: nat, m: nat)
    requires n <= m <= |events| && ScanTo(events, n) == None
    ensures ScanTo(events, m) == None
  {
    if n < m {
      ScanFails(events, n, m - 1);
    }
  }

  lemma ScanNext(events: seq<Event>, n: nat, s: Scan)
    requires n < |events| && ScanTo(events, n) == Some(s)
    ensures ScanTo(events, n + 1) == ScanEvent(s, events[n])
  {
  }

  /** The loop over the lines, with its two flags and growing map. */
  method ScanAll(events: seq<Event>) returns (result: Option<Scan>)
    ensures result == ScanTo(events, |events|)
  {
    var observed: Fields := map[];
    var started, finished := false, false;
    for n := 0 to |events|
      invariant ScanTo(events, n) == Some(Scan(started, finished, observed))
    {
      ghost var scan := Scan(started, finished, observed);
      ScanNext(events, n, scan);
      var failed := false;
      match events[n] {
        case Begin =>
          failed, started := started, true;
        case End =>
          failed, finished := !started || finished, true;
        case Field(parsed) =>
          failed := !started || finished || parsed == None || parsed.value.first in observed;
          if !failed {
            observed := observed[parsed.value.first := parsed.value.second];
            failed := |observed| > MAX_FIELDS;
          }
        case Noise =>
      }
      assert ScanEvent(scan, events[n]) == if failed then None else Some(Scan(started, finished, observed));
      if failed {
        ScanFails(events, n + 1, |events|);
        return None;
      }
    }
    return Some(Scan(started, finished, observed));
  }

  method Verify(expected: Fields, transcript: string) returns (result: Option<Verification>)
    ensures result == Check(expected, transcript)
  {
    if expected == map[] || |transcript| > MAX_TRANSCRIPT {
      return None;
    }
    var scan := ScanAll(EventsOf(Lines(transcript)));
    if scan == None || !scan.value.started || !scan.value.finished {
      return None;
    }
    var observed := scan.value.observed;
    return Some(Verification(forall f | f in expected :: Matches(f, expected[f], observed), observed));
  }

  // ---- What the scan accepts --------------------------------------------------------------

  predicate WellFormed(event: Event) {
    event.Field? && event.parsed.Some?
  }

  function Key(event: Event): string
    requires WellFormed(event)
  {
    event.parsed.value.first
  }

  function Value(event: Event): string
    requires WellFormed(event)
  {
    event.parsed.value.second
  }

  /** The fields of the first n events. */
  function FieldsOf(events: seq<Event>, n: nat): Fields
    requires n <= |events|
  {
    if n == 0 then map[] else
      var m := FieldsOf(events, n - 1);
      if WellFormed(events[n - 1]) then m[Key(events[n - 1]) := Value(events[n - 1])] else m
  }

  predicate SameKey(a: Event, b: Event) {
    WellFormed(a) && WellFormed(b) && Key(a) == Key(b)
  }

  /** The block from line b to line e is the only one, every field line lies inside it and is
      well formed, no key repeats, and there are at most 64 fields. */
  predicate OnlyBlock(events: seq<Event>, b: nat, e: nat) {
    && b < e < |events| && events[b] == Begin && events[e] == End
    && (forall i | 0 <= i < |events| && events[i] == Begin :: i == b)
    && (forall i | 0 <= i < |events| && events[i] == End :: i == e)
    && (forall i | 0 <= i < |events| && events[i].Field? :: b < i < e && WellFormed(events[i]))
    && (forall i, j | 0 <= i < j < |events| :: !SameKey(events[i], events[j]))
    && |FieldsOf(events, |events|)| <= MAX_FIELDS
  }

  /** Some event among the first n carries this key and value. */
  predicate Carried(events: seq<Event>, n: nat, key: string, value: string)
    requires n <= |events|
  {
    exists i | 0 <= i < n :: events[i] == Field(Some(Pair(key, value)))
  }

  lemma {:induction false} FieldsAre(events: seq<Event>, n: nat)
    requires n <= |events|
    ensures forall i | 0 <= i < n && WellFormed(events[i]) :: Key(events[i]) in FieldsOf(events, n)
    ensures forall k | k in FieldsOf(events, n) :: Carried(events, n, k, FieldsOf(events, n)[k])
  {
    if n > 0 {
      FieldsAre(events, n - 1);
      forall k | k in FieldsOf(events, n)
        ensures Carried(events, n, k, FieldsOf(events, n)[k])
      {
        if WellFormed(events[n - 1]) && Key(events[n - 1]) == k {
          assert events[n - 1] == Field(Some(Pair(k, FieldsOf(events, n)[k])));
        } else {
          assert FieldsOf(events, n)[k] == FieldsOf(events, n - 1)[k];
          assert Carried(events, n - 1, k, FieldsOf(events, n - 1)[k]);
        }
      }
    }
  }

  predicate Before(events: seq<Event>, n: nat, event: Event)
    requires n <= |events|
  {
    exists i | 0 <= i < n :: events[i] == event
  }

  /** What is true of an event the scan let through, given the events before it. */
  predicate Accepted(events: seq<Event>, j: nat)
    requires j < |events|
  {
    && (events[j] == Begin ==> !Before(events, j, Begin))
    && (events[j] == End || events[j].Field? ==> Before(events, j, Begin) && !Before(events, j, End))
    && (events[j].Field? ==> WellFormed(events[j]) && forall i | 0 <= i < j :: !SameKey(events[i], events[j]))
  }

  /** A scan that got through n lines has seen what its flags and its map say. */
  lemma {:induction false} ScanMeans(events: seq<Event>, n: nat)
    requires n <= |events| && ScanTo(events, n).Some?
    ensures var s := ScanTo(events, n).value;
      && s.started == Before(events, n, Begin) && s.finished == Before(events, n, End)
      && s.observed == FieldsOf(events, n) && |s.observed| <= MAX_FIELDS
    ensures forall j | 0 <= j < n :: Accepted(events, j)
  {
    if n > 0 {
      ScanMeans(events, n - 1);
      FieldsAre(events, n - 1);
      assert Accepted(events, n - 1);
      assert forall x: Event :: Before(events, n, x) <==> Before(events, n - 1, x) || events[n - 1] == x;
    }
  }

  /** Around the only block, every line is accepted. */
  lemma {:induction false} ScanAccepts(events: seq<Event>, b: nat, e: nat, n: nat)
    requires OnlyBlock(events, b, e) && n <= |events|
    ensures ScanTo(events, n) == Some(Scan(b < n, e < n, FieldsOf(events, n)))
    decreases n
  {
    if n > 0 {
      ScanAccepts(events, b, e, n - 1);
      FieldsGrow(events, n, |events|);
      if WellFormed(events[n - 1]) {
        FreshKey(events, b, e, n - 1);
      }
    }
  }

  lemma FreshKey(events: seq<Event>, b: nat, e: nat, n: nat)
    requires OnlyBlock(events, b, e) && n < |events| && WellFormed(events[n])
    ensures Key(events[n]) !in FieldsOf(events, n)
  {
    FieldsAre(events, n);
    var k := Key(events[n]);
    if k in FieldsOf(events, n) {
      assert Carried(events, n, k, FieldsOf(events, n)[k]);
      var i :| 0 <= i < n && events[i] == Field(Some(Pair(k, FieldsOf(events, n)[k])));
      assert SameKey(events[i], events[n]);
    }
  }

  lemma {:induction false} FieldsGrow(events: seq<Event>, n: nat, m: nat)
    requires n <= m <= |events|
    ensures |FieldsOf(events, n)| <= |FieldsOf(events, m)|
  {
    if n < m {
      FieldsGrow(events, n, m - 1);
      assert FieldsOf(events, m - 1).Keys <= FieldsOf(events, m).Keys;
      SubsetSize(FieldsOf(events, m - 1).Keys, FieldsOf(events, m).Keys);
    }
  }

  lemma {:induction false} SubsetSize<T>(a: set<T>, b: set<T>)
    requires a <= b
    ensures |a| <= |b|
  {
    if a != {} {
      var x :| x in a;
      SubsetSize(a - {x}, b - {x});
    }
  }

  predicate Complete(events: seq<Event>) {
    var s := ScanTo(events, |events|);
    s.Some? && s.value.started && s.value.finished
  }

  lemma CompleteIsBlock(events: seq<Event>) returns (b: nat, e: nat)
    requires Complete(events)
    ensures OnlyBlock(events, b, e)
  {
    var n := |events|;
    ScanMeans(events, n);
    b :| 0 <= b < n && events[b] == Begin;
    e :| 0 <= e < n && events[e] == End;
    forall j | 0 <= j < n && (events[j] == End || events[j].Field?) ensures b < j && Before(events, j, Begin) {
      assert Accepted(events, j);
      var i :| 0 <= i < j && events[i] == Begin;
      assert Accepted(events, i) && Accepted(events, b);
    }
    forall j | 0 <= j < n && events[j].Field? ensures j < e && WellFormed(events[j]) {
      assert Accepted(events, j) && Accepted(events, e);
    }
    forall j | 0 <= j < n && events[j] in {Begin, End} ensures j == b || j == e {
      assert Accepted(events, j) && Accepted(events, b) && Accepted(events, e);
    }
    forall i, j | 0 <= i < j < n ensures !SameKey(events[i], events[j]) {
      assert Accepted(events, j);
    }
  }

  // ---- Main results -----------------------------------------------------------------------

  /** Some field line gives this field its expected value. */
  predicate Reports(events: seq<Event>, field: string, expected: string) {
    exists i | 0 <= i < |events| ::
      WellFormed(events[i]) && Key(events[i]) == field && SameValue(field, expected, Value(events[i]))
  }

  lemma MatchesIffReported(events: seq<Event>, b: nat, e: nat, field: string, expected: string)
    requires OnlyBlock(events, b, e)
    ensures Matches(field, expected, FieldsOf(events, |events|)) <==> Reports(events, field, expected)
  {
    var m := FieldsOf(events, |events|);
    FieldsAre(events, |events|);
    if field in m {
      assert Carried(events, |events|, field, m[field]);
      var j :| 0 <= j < |events| && events[j] == Field(Some(Pair(field, m[field])));
      forall i | 0 <= i < |events| && WellFormed(events[i]) && Key(events[i]) == field ensures i == j {
        assert SameKey(events[i], events[j]);
      }
    }
  }

  /** The checker is exact. It gives a verdict if and only if something is expected and the
      transcript is within the limit and holds a single well-formed block; the verdict is a pass
      if and only if that block reports every expected field with its value, the UUID up to
      case. */
  lemma CheckExact(expected: Fields, transcript: string)
    ensures var events := EventsOf(Lines(transcript)); var result := Check(expected, transcript);
      && (result.Some? <==>
            expected != map[] && |transcript| <= MAX_TRANSCRIPT && exists b: nat, e: nat :: OnlyBlock(events, b, e))
      && (result.Some? ==>
            (result.value.passed <==> forall f | f in expected :: Reports(events, f, expected[f])))
  {
    var events := EventsOf(Lines(transcript));
    if Complete(events) {
      var b, e := CompleteIsBlock(events);
    }
    if b: nat, e: nat :| OnlyBlock(events, b, e) {
      ScanAccepts(events, b, e, |events|);
      forall f | f in expected
        ensures Matches(f, expected[f], FieldsOf(events, |events|)) <==> Reports(events, f, expected[f])
      {
        MatchesIffReported(events, b, e, f, expected[f]);
      }
    }
  }

  predicate SameLetter(a: char, b: char) {
    || ('a' <= a <= 'z' && b as int == a as int - 32)
    || ('a' <= b <= 'z' && a as int == b as int - 32)
  }

  /** Equal but for the case of letters. */
  predicate SameButCase(a: string, b: string) {
    |a| == |b| && forall k | 0 <= k < |a| :: a[k] == b[k] || SameLetter(a[k], b[k])
  }

  lemma LowerIgnoresCase(a: string, b: string)
    ensures Lower(a) == Lower(b) <==> SameButCase(a, b)
  {
    if Lower(a) == Lower(b) {
      assert |Lower(a)| == |a| && |Lower(b)| == |b|;
      forall k | 0 <= k < |a| ensures a[k] == b[k] || SameLetter(a[k], b[k]) {
        assert Lower(a)[k] == LowerChar(a[k]) && Lower(b)[k] == LowerChar(b[k]);
      }
    }
  }

  /** The value says something else than was expected: of the UUID the case does not count. */
  predicate Contradicts(field: string, expected: string, value: string) {
    value != expected && (field == "product_uuid" ==> !SameButCase(value, expected))
  }

  /** A block that reports another value for an expected field, or no value at all, does not pass. */
  lemma OtherValueFails(expected: Fields, transcript: string, field: string)
    requires Check(expected, transcript).Some? && field in expected
    requires var events := EventsOf(Lines(transcript));
      || (exists i :: 0 <= i < |events| && WellFormed(events[i]) && Key(events[i]) == field
                      && Contradicts(field, expected[field], Value(events[i])))
      || (forall i | 0 <= i < |events| && WellFormed(events[i]) :: Key(events[i]) != field)
    ensures !Check(expected, transcript).value.passed
  {
    var events := EventsOf(Lines(transcript));
    CheckExact(expected, transcript);
    var b: nat, e: nat :| OnlyBlock(events, b, e);
    if Reports(events, field, expected[field]) {
      var j :| 0 <= j < |events| && WellFormed(events[j]) && Key(events[j]) == field
               && SameValue(field, expected[field], Value(events[j]));
      LowerIgnoresCase(Value(events[j]), expected[field]);
      forall i | 0 <= i < |events| && WellFormed(events[i]) && Key(events[i]) == field ensures i == j {
        assert !SameKey(events[if i < j then i else j], events[if i < j then j else i]) || i == j;
      }
    }
  }

  function FieldLine(key: string, value: string): string {
    FIELD + key + "=" + value
  }

  /** A map the block can carry. */
  predicate Printable(m: Fields) {
    && 0 < |m| <= MAX_FIELDS
    && forall k | k in m :: ValidKey(k) && ValidValue(m[k]) && PlainLine(m[k])
  }

  /** The body prints every entry of m once, in any order, amid unrelated lines. */
  predicate Prints(body: seq<string>, m: Fields) {
    && (forall i | 0 <= i < |body| :: EventOf(body[i]) == Noise || exists k :: k in m && body[i] == FieldLine(k, m[k]))
    && (forall k | k in m :: FieldLine(k, m[k]) in body)
    && (forall i, j | 0 <= i < j < |body| && EventOf(body[i]) != Noise :: body[i] != body[j])
  }

  lemma FieldLineParses(key: string, value: string)
    requires ValidKey(key) && ValidValue(value)
    ensures EventOf(FieldLine(key, value)) == Field(Some(Pair(key, value)))
  {
    var line := FieldLine(key, value);
    assert line[..|FIELD|] == FIELD;
    assert line[|FIELD|..] == key + ['='] + value;
    assert line[10] == ' ' && BEGIN[10] == '_' && END[10] == '_';
    SplitOnceConcat(key, '=', value);
  }

  lemma MarkersParse()
    ensures EventOf(BEGIN) == Begin && EventOf(END) == End
  {
    assert |BEGIN| == 16 && |END| == 14;
  }

  /** The events of a transcript that prints m: noise, BEGIN, body, END, noise. */
  predicate PrintedEvents(events: seq<Event>, b: nat, e: nat, m: Fields) {
    && b < e < |events| && events[b] == Begin && events[e] == End
    && (forall i | 0 <= i < |events| && (i < b || e < i) :: events[i] == Noise)
    && (forall i | b < i < e :: events[i] == Noise
         || (WellFormed(events[i]) && Key(events[i]) in m && m[Key(events[i])] == Value(events[i])))
    && (forall i, j | b < i < j < e :: !SameKey(events[i], events[j]))
  }

  lemma {:induction false} FewFields(events: seq<Event>, n: nat, m: Fields)
    requires n <= |events|
    requires forall i | 0 <= i < n && WellFormed(events[i]) :: Key(events[i]) in m
    ensures FieldsOf(events, n).Keys <= m.Keys
  {
    if n > 0 {
      FewFields(events, n - 1, m);
      if WellFormed(events[n - 1]) {
        assert FieldsOf(events, n).Keys == FieldsOf(events, n - 1).Keys + {Key(events[n - 1])};
      }
    }
  }

  lemma PrintedBlock(events: seq<Event>, b: nat, e: nat, m: Fields)
    requires PrintedEvents(events, b, e, m) && |m| <= MAX_FIELDS
    ensures OnlyBlock(events, b, e)
  {
    forall i | 0 <= i < |events|
      ensures events[i] == Begin ==> i == b
      ensures events[i] == End ==> i == e
      ensures events[i].Field? ==> b < i < e && WellFormed(events[i]) && Key(events[i]) in m
    {
      if b < i < e {
        assert events[i] == Noise || WellFormed(events[i]);
      }
    }
    FewFields(events, |events|, m);
    SubsetSize(FieldsOf(events, |events|).Keys, m.Keys);
  }

  function Transcript(before: seq<string>, body: seq<string>, after: seq<string>): seq<string> {
    before + [BEGIN] + body + [END] + after
  }

  lemma BodyEvent(body: seq<string>, m: Fields, i: nat)
    requires Printable(m) && Prints(body, m) && i < |body| && EventOf(body[i]) != Noise
    ensures WellFormed(EventOf(body[i]))
    ensures var key := Key(EventOf(body[i])); key in m && body[i] == FieldLine(key, m[key])
    ensures m[Key(EventOf(body[i]))] == Value(EventOf(body[i]))
  {
    var k :| k in m && body[i] == FieldLine(k, m[k]);
    FieldLineParses(k, m[k]);
  }

  lemma TranscriptEvents(before: seq<string>, body: seq<string>, after: seq<string>, m: Fields)
    requires Printable(m) && Prints(body, m)
    requires forall l | l in before + after :: EventOf(l) == Noise
    ensures var events := EventsOf(Transcript(before, body, after));
      PrintedEvents(events, |before|, |before| + 1 + |body|, m)
  {
    var lines := Transcript(before, body, after);
    var events := EventsOf(lines);
    var b, e := |before|, |before| + 1 + |body|;
    MarkersParse();
    assert lines[b] == BEGIN && lines[e] == END;
    forall i | 0 <= i < |lines| && (i < b || e < i) ensures events[i] == Noise {
      assert lines[i] == if i < b then before[i] else after[i - e - 1];
      assert lines[i] in before + after;
    }
    forall i | b < i < e
      ensures lines[i] == body[i - b - 1]
      ensures events[i] == Noise || (WellFormed(events[i]) && Key(events[i]) in m
              && m[Key(events[i])] == Value(events[i]) && lines[i] == FieldLine(Key(events[i]), m[Key(events[i])]))
    {
      if events[i] != Noise {
        BodyEvent(body, m, i - b - 1);
      }
    }
  }

  /** Printing any bounded map in any order amid unrelated lines and checking it passes. */
  lemma PrintThenVerify(before: seq<string>, body: seq<string>, after: seq<string>, m: Fields)
    requires Printable(m) && Prints(body, m)
    requires forall l | l in before + after :: EventOf(l) == Noise
    requires forall l | l in before + body + after :: PlainLine(l)
    requires |TextOf(Transcript(before, body, after))| <= MAX_TRANSCRIPT
    ensures var result := Check(m, TextOf(Transcript(before, body, after)));
      result.Some? && result.value.passed
  {
    var lines := Transcript(before, body, after);
    TranscriptIsPlain(before, body, after);
    LinesOfTextOf(lines);
    TranscriptEvents(before, body, after, m);
    var events := EventsOf(lines);
    PrintedBlock(events, |before|, |before| + 1 + |body|, m);
    forall f | f in m ensures Reports(events, f, m[f]) {
      EntryReported(before, body, after, m, f);
    }
    CheckExact(m, TextOf(lines));
  }

  lemma EntryReported(before: seq<string>, body: seq<string>, after: seq<string>, m: Fields, f: string)
    requires Printable(m) && Prints(body, m) && f in m
    ensures Reports(EventsOf(Transcript(before, body, after)), f, m[f])
  {
    var j :| 0 <= j < |body| && body[j] == FieldLine(f, m[f]);
    BodyLine(before, body, after, j);
    FieldLineParses(f, m[f]);
    ReportedAt(EventsOf(Transcript(before, body, after)), |before| + 1 + j, f, m[f]);
  }

  lemma BodyLine(before: seq<string>, body: seq<string>, after: seq<string>, j: nat)
    requires j < |body|
    ensures var lines := Transcript(before, body, after);
      |before| + 1 + j < |lines| && lines[|before| + 1 + j] == body[j]
  {
  }

  lemma ReportedAt(events: seq<Event>, i: nat, field: string, value: string)
    requires i < |events| && events[i] == Field(Some(Pair(field, value)))
    ensures Reports(events, field, value)
  {
  }

  lemma TranscriptIsPlain(before: seq<string>, body: seq<string>, after: seq<string>)
    requires forall l | l in before + body + after :: PlainLine(l)
    ensures forall l | l in Transcript(before, body, after) :: PlainLine(l)
  {
    assert PlainLine(BEGIN) && PlainLine(END);
    forall l | l in Transcript(before, body, after) ensures PlainLine(l) {
      assert l in before + body + after || l == BEGIN || l == END;
    }
  }
}
