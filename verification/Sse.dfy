/**
 The event-stream reader of internal/mcp/client.go: returns the first JSON-RPC message
 that carries a result or an error.
 */
module Sse {
  import opened Text

  /** Decodes a payload; Some exactly for a JSON-RPC message with a result or an error. */
  type Decoder<R> = string -> Option<R>

  datatype Outcome<R> = Found(message: R) | ReadFailed | NoMessage

  predicate HasPrefix(s: string, prefix: string) {
    prefix <= s
  }

  /** At most one leading space belongs to the field syntax. */
  function TrimSpace(s: string): (r: string) {
    if HasPrefix(s, " ") then s[1..] else s
  }

  // ----- The rule -----

  /** The data a line contributes to its event; comments and other fields contribute none. */
  function Data(line: string): (r: string) {
    if HasPrefix(line, "data:") then TrimSpace(line[5..]) else ""
  }

  /** The events ended by a blank line, and the lines after the last blank one. */
  function Split(lines: seq<string>): (r: (seq<seq<string>>, seq<string>)) {
    if lines == [] then ([], []) else
    var before := Split(lines[..|lines| - 1]);
    var line := lines[|lines| - 1];
    if line == "" then (before.0 + [before.1], []) else (before.0, before.1 + [line])
  }

  /** An event's payload is the concatenation of its data. */
  function Payload(event: seq<string>): (r: string) {
    if event == [] then "" else Payload(event[..|event| - 1]) + Data(event[|event| - 1])
  }

  function Payloads(events: seq<seq<string>>): (r: seq<string>)
    ensures |r| == |events|
  {
    seq(|events|, i requires 0 <= i < |events| => Payload(events[i]))
  }

  /** An event without data is never decoded. */
  function Message<R>(decode: Decoder<R>, payload: string): (r: Option<R>) {
    if payload == "" then None else decode(payload)
  }

  function FirstMessage<R>(decode: Decoder<R>, payloads: seq<string>): (r: Option<R>) {
    if payloads == [] then None else
    var earlier := FirstMessage(decode, payloads[..|payloads| - 1]);
    if earlier.Some? then earlier else Message(decode, payloads[|payloads| - 1])
  }

  /** The message of the earliest ended event that holds one. */
  function FirstEnded<R>(decode: Decoder<R>, lines: seq<string>): (r: Option<R>) {
    FirstMessage(decode, Payloads(Split(lines).0))
  }

  /**
   The first ended event that holds a message; failing that, the unterminated trailing
   event, provided the stream ended without a read error.
   */
  function Rule<R>(decode: Decoder<R>, lines: seq<string>, readError: bool): (r: Outcome<R>) {
    var ended := FirstEnded(decode, lines);
    if ended.Some? then Found(ended.value)
    else if readError then ReadFailed
    else
      var trailing := Message(decode, Payload(Split(lines).1));
      if trailing.Some? then Found(trailing.value) else NoMessage
  }

  // ----- What the rule means -----

  /** Every event of the input: those ended by a blank line, and unless reading failed the trailing one. */
  function Events(lines: seq<string>, readError: bool): (r: seq<seq<string>>) {
    if readError then Split(lines).0 else Split(lines).0 + [Split(lines).1]
  }

  /** The first n payloads hold no message; an empty one never does. */
  predicate NoneHolds<R>(decode: Decoder<R>, payloads: seq<string>, n: nat)
    requires n <= |payloads|
  {
    forall j :: 0 <= j < n ==> payloads[j] == "" || decode(payloads[j]).None?
  }

  /** Payload i holds the message, and no earlier one holds any. */
  predicate EarliestHolds<R(==)>(decode: Decoder<R>, payloads: seq<string>, i: nat, m: R) {
    && i < |payloads| && NoneHolds(decode, payloads, i)
    && payloads[i] != "" && decode(payloads[i]) == Some(m)
  }

  ghost predicate Earliest<R>(decode: Decoder<R>, payloads: seq<string>, m: R) {
    exists i: nat :: EarliestHolds(decode, payloads, i, m)
  }

  /** The outcome is the message of the earliest event that holds one, or says that none does. */
  ghost predicate Reports<R>(decode: Decoder<R>, events: seq<seq<string>>, readError: bool, r: Outcome<R>) {
    var payloads := Payloads(events);
    match r
    case Found(m) => Earliest(decode, payloads, m)
    case ReadFailed => readError && NoneHolds(decode, payloads, |payloads|)
    case NoMessage => !readError && NoneHolds(decode, payloads, |payloads|)
  }

  /** FirstMessage picks the earliest payload that holds a message. */
  lemma {:induction false} FirstMessageIsFirst<R>(decode: Decoder<R>, payloads: seq<string>)
    ensures var r := FirstMessage(decode, payloads);
            && (r.None? <==> forall i :: 0 <= i < |payloads| ==> Message(decode, payloads[i]).None?)
            && (r.Some? ==> exists i :: 0 <= i < |payloads| && Message(decode, payloads[i]) == r
                                        && forall j :: 0 <= j < i ==> Message(decode, payloads[j]).None?)
  {
    if payloads != [] {
      var n := |payloads| - 1;
      FirstMessageIsFirst(decode, payloads[..n]);
      var earlier := FirstMessage(decode, payloads[..n]);
      if earlier.Some? {
        var i :| 0 <= i < n && Message(decode, payloads[..n][i]) == earlier
                 && forall j :: 0 <= j < i ==> Message(decode, payloads[..n][j]).None?;
        assert Message(decode, payloads[i]) == earlier;
        assert forall j :: 0 <= j < i ==> payloads[j] == payloads[..n][j];
      } else {
        assert forall j :: 0 <= j < n ==> payloads[j] == payloads[..n][j];
      }
    }
  }

  lemma RuleSeesEvents<R>(decode: Decoder<R>, lines: seq<string>, readError: bool)
    ensures var first := FirstMessage(decode, Payloads(Events(lines, readError)));
            Rule(decode, lines, readError)
            == if first.Some? then Found(first.value) else if readError then ReadFailed else NoMessage
  {
    PayloadsSnoc(Split(lines).0, Split(lines).1);
    FirstMessageSnoc(decode, Payloads(Split(lines).0), Payload(Split(lines).1));
  }

  lemma {:induction false} NoneHoldsIff<R>(decode: Decoder<R>, payloads: seq<string>)
    ensures FirstMessage(decode, payloads).None? <==> NoneHolds(decode, payloads, |payloads|)
  {
    if payloads != [] {
      var n := |payloads| - 1;
      NoneHoldsIff(decode, payloads[..n]);
      assert NoneHolds(decode, payloads[..n], n) == NoneHolds(decode, payloads, n);
    }
  }

  lemma {:induction false} EarliestIsFirst<R>(decode: Decoder<R>, payloads: seq<string>, m: R)
    ensures FirstMessage(decode, payloads) == Some(m) <==> Earliest(decode, payloads, m)
  {
    if payloads != [] {
      var n := |payloads| - 1;
      EarliestIsFirst(decode, payloads[..n], m);
      NoneHoldsIff(decode, payloads[..n]);
      forall i: nat | i <= n ensures NoneHolds(decode, payloads, i) == NoneHolds(decode, payloads[..n], i) {}
      forall i: nat | i < n
        ensures EarliestHolds(decode, payloads, i, m) == EarliestHolds(decode, payloads[..n], i, m) {}
      assert EarliestHolds(decode, payloads, n, m)
             <==> NoneHolds(decode, payloads[..n], n) && Message(decode, payloads[n]) == Some(m);
    }
  }

  /**
   A message is found exactly if some event holds it and no earlier event holds any, where
   the trailing event counts unless reading failed.
   */
  lemma RuleIsEarliest<R>(decode: Decoder<R>, lines: seq<string>, readError: bool, m: R)
    ensures Rule(decode, lines, readError) == Found(m)
            <==> Earliest(decode, Payloads(Events(lines, readError)), m)
  {
    RuleSeesEvents(decode, lines, readError);
    EarliestIsFirst(decode, Payloads(Events(lines, readError)), m);
  }

  lemma RuleReports<R>(decode: Decoder<R>, lines: seq<string>, readError: bool)
    ensures Reports(decode, Events(lines, readError), readError, Rule(decode, lines, readError))
  {
    var r, payloads := Rule(decode, lines, readError), Payloads(Events(lines, readError));
    RuleSeesEvents(decode, lines, readError);
    NoneHoldsIff(decode, payloads);
    if r.Found? { EarliestIsFirst(decode, payloads, r.message); }
  }

  /** The lines that events, ended and open, came from. */
  function Join(events: seq<seq<string>>, open: seq<string>): (lines: seq<string>) {
    if events == [] then open else Join(events[..|events| - 1], events[|events| - 1]) + [""] + open
  }

  predicate BlankFree(event: seq<string>) {
    "" !in event
  }

  /** Splitting loses and reorders nothing: the events rejoin to the input, and hold no blank line. */
  lemma {:induction false} SplitRoundTrip(lines: seq<string>)
    ensures Join(Split(lines).0, Split(lines).1) == lines
    ensures BlankFree(Split(lines).1) && forall i :: 0 <= i < |Split(lines).0| ==> BlankFree(Split(lines).0[i])
  {
    if lines != [] {
      var n := |lines| - 1;
      var (events, open) := Split(lines[..n]);
      SplitRoundTrip(lines[..n]);
      assert lines == lines[..n] + [lines[n]];
      if lines[n] == "" {
        assert (events + [open])[..|events|] == events;
        assert Join(events + [open], []) == Join(events, open) + [""] + [];
      } else {
        JoinGrows(events, open, lines[n]);
      }
    }
  }

  lemma JoinGrows(events: seq<seq<string>>, open: seq<string>, line: string)
    ensures Join(events, open + [line]) == Join(events, open) + [line]
  {
    if events != [] {
      var before := Join(events[..|events| - 1], events[|events| - 1]) + [""];
      assert before + (open + [line]) == before + open + [line];
    }
  }

  /** A data field's value is what follows the colon, less one leading space. */
  lemma DataStripsOneSpace(v: string)
    ensures Data("data: " + v) == v
    ensures !HasPrefix(v, " ") ==> Data("data:" + v) == v
  {
    assert ("data: " + v)[..5] == "data:" && ("data: " + v)[5..] == " " + v && (" " + v)[1..] == v;
    assert ("data:" + v)[..5] == "data:" && ("data:" + v)[5..] == v;
  }

  // ----- The reader -----

  lemma FirstMessageSnoc<R>(decode: Decoder<R>, payloads: seq<string>, p: string)
    ensures FirstMessage(decode, payloads + [p])
            == if FirstMessage(decode, payloads).Some? then FirstMessage(decode, payloads) else Message(decode, p)
  {
    assert (payloads + [p])[..|payloads|] == payloads;
  }

  lemma PayloadsSnoc(events: seq<seq<string>>, e: seq<string>)
    ensures Payloads(events + [e]) == Payloads(events) + [Payload(e)]
  {
  }

  /** What one more line does to the split and to the payloads. */
  lemma SplitSnoc(lines: seq<string>, line: string)
    ensures var (events, open) := Split(lines);
            var r := Split(lines + [line]);
            if line == "" then
              r == (events + [open], []) && Payloads(r.0) == Payloads(events) + [Payload(open)]
            else
              r == (events, open + [line]) && Payload(r.1) == Payload(open) + Data(line)
  {
    var (events, open) := Split(lines);
    assert (lines + [line])[..|lines|] == lines;
    if line == "" {
      PayloadsSnoc(events, open);
    } else {
      assert (open + [line])[..|open|] == open;
    }
  }

  /** A blank line offers the open event's payload; other lines end no event. */
  lemma LineOffers<R>(decode: Decoder<R>, lines: seq<string>, line: string)
    ensures var before := FirstEnded(decode, lines);
            FirstEnded(decode, lines + [line])
            == if before.Some? || line != "" then before else Message(decode, Payload(Split(lines).1))
  {
    SplitSnoc(lines, line);
    FirstMessageSnoc(decode, Payloads(Split(lines).0), Payload(Split(lines).1));
  }

  /** Later lines cannot change a message already found. */
  lemma {:induction false} FoundIsFinal<R>(decode: Decoder<R>, lines: seq<string>, k: nat)
    requires k <= |lines| && FirstEnded(decode, lines[..k]).Some?
    ensures FirstEnded(decode, lines) == FirstEnded(decode, lines[..k])
  {
    if k < |lines| {
      var n := |lines| - 1;
      var shorter := lines[..n];
      assert shorter[..k] == lines[..k];
      FoundIsFinal(decode, shorter, k);
      LineOffers(decode, shorter, lines[n]);
      assert shorter + [lines[n]] == lines;
    } else {
      assert lines[..k] == lines;
    }
  }

  /** `readError` says whether the scanner stops after these lines with an error. */
  method ParseSse<R>(lines: seq<string>, readError: bool, decode: Decoder<R>) returns (r: Outcome<R>)
    ensures r == Rule(decode, lines, readError)
    ensures Reports(decode, Events(lines, readError), readError, r)
  {
    RuleReports(decode, lines, readError);
    var data := "";
    for i := 0 to |lines|
      invariant data == Payload(Split(lines[..i]).1)
      invariant FirstEnded(decode, lines[..i]).None?
    {
      var line := lines[i];
      assert lines[..i + 1] == lines[..i] + [line];
      SplitSnoc(lines[..i], line);
      LineOffers(decode, lines[..i], line);
      if line == "" {
        var resp := Flush(decode, data);
        if resp.Some? {
          FoundIsFinal(decode, lines, i + 1);
          return Found(resp.value);
        }
        data := "";
        continue;
      }
      if HasPrefix(line, ":") {
        assert line[0] == ':' && !HasPrefix(line, "data:");
        continue;
      }
      if HasPrefix(line, "data:") {
        data := data + TrimSpace(line[5..]);
      }
    }
    assert lines[..|lines|] == lines;
    if readError {
      return ReadFailed;
    }
    var last := Flush(decode, data);
    r := if last.Some? then Found(last.value) else NoMessage;
  }

  method Flush<R>(decode: Decoder<R>, data: string) returns (r: Option<R>)
    ensures r == Message(decode, data)
  {
    if |data| == 0 {
      return None;
    }
    r := decode(data);
  }

  // ----- Lines that do not matter -----

  predicate Ignored(line: string) {
    line != "" && !HasPrefix(line, "data:")
  }

  lemma CommentsAreIgnored(line: string)
    requires HasPrefix(line, ":")
    ensures Ignored(line)
  {
    assert line[0] == ':';
  }

  /** Two inputs that offer the same payloads so far, ended and open. */
  predicate SameOffers(xs: seq<string>, ys: seq<string>) {
    var a, b := Split(xs), Split(ys);
    Payloads(b.0) == Payloads(a.0) && Payload(b.1) == Payload(a.1)
  }

  lemma SameLineSameOffers(xs: seq<string>, ys: seq<string>, line: string)
    requires SameOffers(xs, ys)
    ensures SameOffers(xs + [line], ys + [line])
  {
    SplitSnoc(xs, line);
    SplitSnoc(ys, line);
  }

  lemma IgnoredLineOffersNothing(lines: seq<string>, line: string)
    requires Ignored(line)
    ensures SameOffers(lines, lines + [line])
  {
    SplitSnoc(lines, line);
  }

  function Inserted(lines: seq<string>, k: nat, line: string): (r: seq<string>)
    requires k <= |lines|
  {
    lines[..k] + [line] + lines[k..]
  }

  lemma InsertedBeforeLast(lines: seq<string>, k: nat, line: string)
    requires k < |lines|
    ensures var n := |lines| - 1;
            && lines == lines[..n] + [lines[n]]
            && Inserted(lines, k, line) == Inserted(lines[..n], k, line) + [lines[n]]
  {
  }

  lemma {:induction false} IgnoredLineKeepsPayloads(lines: seq<string>, k: nat, line: string)
    requires k <= |lines| && Ignored(line)
    ensures SameOffers(lines, Inserted(lines, k, line))
  {
    if k == |lines| {
      IgnoredLineOffersNothing(lines, line);
      assert Inserted(lines, k, line) == lines + [line];
    } else {
      var init, last := lines[..|lines| - 1], lines[|lines| - 1];
      IgnoredLineKeepsPayloads(init, k, line);
      SameLineSameOffers(init, Inserted(init, k, line), last);
      InsertedBeforeLast(lines, k, line);
    }
  }

  ghost predicate SameResult<R>(decode: Decoder<R>, xs: seq<string>, ys: seq<string>, readError: bool) {
    Rule(decode, ys, readError) == Rule(decode, xs, readError)
  }

  /** Inserting a comment or an unknown field anywhere never changes the result. */
  lemma IgnoredLinesNeverMatter<R>(decode: Decoder<R>, lines: seq<string>, k: nat, line: string, readError: bool)
    requires k <= |lines| && (HasPrefix(line, ":") || Ignored(line))
    ensures SameResult(decode, lines, Inserted(lines, k, line), readError)
  {
    if HasPrefix(line, ":") { CommentsAreIgnored(line); }
    IgnoredLineKeepsPayloads(lines, k, line);
  }

  // ----- Blank lines that do not matter -----

  /** Without a read error, ending the trailing event changes nothing. */
  lemma ClosingBlankLineNeverMatters<R>(decode: Decoder<R>, lines: seq<string>)
    ensures SameResult(decode, lines, lines + [""], false)
  {
    LineOffers(decode, lines, "");
    SplitSnoc(lines, "");
  }

  /** A blank line after a blank line, or before everything, ends an event without data. */
  predicate AtEventStart(lines: seq<string>, k: nat)
    requires k <= |lines|
  {
    k == 0 || lines[k - 1] == ""
  }

  /** The same messages in the same order, up to payloads that are empty. */
  ghost predicate SameMessages<R>(decode: Decoder<R>, xs: seq<string>, ys: seq<string>) {
    FirstEnded(decode, ys) == FirstEnded(decode, xs) && Payload(Split(ys).1) == Payload(Split(xs).1)
  }

  lemma SameLineSameMessages<R>(decode: Decoder<R>, xs: seq<string>, ys: seq<string>, line: string)
    requires SameMessages(decode, xs, ys)
    ensures SameMessages(decode, xs + [line], ys + [line])
  {
    LineOffers(decode, xs, line);
    LineOffers(decode, ys, line);
    SplitSnoc(xs, line);
    SplitSnoc(ys, line);
  }

  lemma {:induction false} ExtraBlankKeepsMessages<R>(decode: Decoder<R>, lines: seq<string>, k: nat)
    requires k <= |lines| && AtEventStart(lines, k)
    ensures SameMessages(decode, lines, Inserted(lines, k, ""))
  {
    if k == |lines| {
      assert Inserted(lines, k, "") == lines + [""];
      LineOffers(decode, lines, "");
      SplitSnoc(lines, "");
      if lines != [] {
        assert lines == lines[..k - 1] + [lines[k - 1]];
        SplitSnoc(lines[..k - 1], "");
      }
    } else {
      var init, last := lines[..|lines| - 1], lines[|lines| - 1];
      ExtraBlankKeepsMessages(decode, init, k);
      SameLineSameMessages(decode, init, Inserted(init, k, ""), last);
      InsertedBeforeLast(lines, k, "");
    }
  }

  /** An event without data never matters: a blank line may be repeated anywhere. */
  lemma ExtraBlankLinesNeverMatter<R>(decode: Decoder<R>, lines: seq<string>, k: nat, readError: bool)
    requires k <= |lines| && AtEventStart(lines, k)
    ensures SameResult(decode, lines, Inserted(lines, k, ""), readError)
  {
    ExtraBlankKeepsMessages(decode, lines, k);
  }

  // ----- The payload of section 9.2.6 of the WHATWG HTML Standard -----

  /** A data field: "data:" with a value, or "data" alone with an empty one. */
  predicate IsData(line: string) {
    HasPrefix(line, "data:") || line == "data"
  }

  /** Every data field appends its value and a line feed to the data buffer. */
  function DataBuffer(event: seq<string>): (r: string) {
    if event == [] then "" else
    var line := event[|event| - 1];
    DataBuffer(event[..|event| - 1]) + if IsData(line) then Data(line) + "\n" else ""
  }

  /** The data buffer without its last line feed. */
  function StandardPayload(event: seq<string>): (r: string) {
    var buffer := DataBuffer(event);
    if buffer == "" then "" else buffer[..|buffer| - 1]
  }

  function DataFields(event: seq<string>): (n: nat) {
    if event == [] then 0
    else DataFields(event[..|event| - 1]) + if IsData(event[|event| - 1]) then 1 else 0
  }

  lemma {:induction false} BufferSize(event: seq<string>)
    ensures |DataBuffer(event)| == |Payload(event)| + DataFields(event)
  {
    if event != [] {
      BufferSize(event[..|event| - 1]);
    }
  }

  lemma {:induction false} SmallBuffer(event: seq<string>)
    requires DataFields(event) <= 1
    ensures DataBuffer(event) == Payload(event) + if DataFields(event) == 1 then "\n" else ""
  {
    if event != [] {
      var before, line := event[..|event| - 1], event[|event| - 1];
      SmallBuffer(before);
      if IsData(line) { assert DataBuffer(before) == "" by { BufferSize(before); EmptyWithoutFields(before); } }
    }
  }

  lemma {:induction false} EmptyWithoutFields(event: seq<string>)
    requires DataFields(event) == 0
    ensures Payload(event) == ""
  {
    if event != [] {
      EmptyWithoutFields(event[..|event| - 1]);
    }
  }

  /** The payload is the standard's if and only if the event has at most one data field. */
  lemma PayloadIsStandardIff(event: seq<string>)
    ensures Payload(event) == StandardPayload(event) <==> DataFields(event) <= 1
  {
    BufferSize(event);
    if DataFields(event) <= 1 { SmallBuffer(event); }
  }

  /** Two data lines: the reader joins them directly, the standard with a line feed. */
  lemma TwoDataLinesDiffer()
    ensures Payload(["data: a", "data: b"]) == "ab" && StandardPayload(["data: a", "data: b"]) == "a\nb"
  {
    var one, two := ["data: a"], ["data: a", "data: b"];
    assert two[..1] == one && one[..0] == [];
    assert Payload(one) == "a" && DataBuffer(one) == "a\n";
    assert DataBuffer(two) == "a\nb\n";
  }
}
