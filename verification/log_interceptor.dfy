/**
 * LogInterceptor.swift: times each request from its modify hook to its response
 * hook and prints a boxed summary. Clock readings are parameters and the printed
 * text is returned rather than written to the console.
 */
module Logging {
  import opened Wrappers
  import opened Utf8
  import opened Http
  import opened Strings
  import opened ApiInterceptors
  import opened ApiPipeline
  import SendProperties

  datatype LogLevel = Verbose | Info

  function DigitChar(d: nat): (c: char)
    requires d < 10
    ensures '0' <= c <= '9'
  {
    ('0' as int + d) as char
  }

  /** Decimal text of a natural number. */
  function NatText(n: nat): (s: string)
    ensures s != [] && forall c :: c in s ==> '0' <= c <= '9'
  {
    if n < 10 then [DigitChar(n)] else NatText(n / 10) + [DigitChar(n % 10)]
  }

  /** Decimal text of an integer, as string interpolation writes it. */
  function IntText(n: int): (s: string)
    ensures s != [] && '\n' !in s
  {
    if n < 0 then "-" + NatText(-n) else NatText(n)
  }

  const SuccessMark := "\U{2705}"
  const FailureMark := "\U{2757}\U{FE0F}"

  /** How long the request `id` took by `now`: 0 when no start time was recorded for it. */
  function Elapsed(starts: map<Uuid, int>, id: Uuid, now: int): (took: int)
    ensures id in starts ==> took == now - starts[id]
    ensures id !in starts ==> took == 0
  {
    now - (if id in starts then starts[id] else now)
  }

  /** The first section: the request identifier and how long it took. */
  function IdSection(id: Uuid, took: int): string {
    "ID: " + id + "\nTook: " + IntText(took) + " seconds"
  }

  /** The first section reads back as two lines: the request identifier, then the time taken. */
  lemma IdSectionLines(id: Uuid, took: int)
    requires '\n' !in id
    ensures SplitLines(IdSection(id, took)) == ["ID: " + id, "Took: " + IntText(took) + " seconds"]
  {
    var first := "ID: " + id;
    var second := "Took: " + IntText(took) + " seconds";
    assert IdSection(id, took) == first + "\n" + second;
    SplitLineThenRest(first, second);
    SplitOneLine(second);
  }

  /** The second section: method and URL, and at verbose level the request body when it is UTF-8 text. */
  function RequestSection(request: Request, level: LogLevel): (s: string)
    ensures var base := "Method: " + request.httpMethod + "\nURL: " + request.url;
            && (level == Info || request.body.None? || Decode(request.body.value).None? ==> s == base)
            && (level == Verbose && request.body.Some? && Decode(request.body.value).Some? ==>
                  s == base + "\n" + Decode(request.body.value).value)
  {
    var base := "Method: " + request.httpMethod + "\nURL: " + request.url;
    if level == Verbose && request.body.Some? && Decode(request.body.value).Some? then
      base + "\n" + Decode(request.body.value).value
    else base
  }

  /**
   * The third section: the status code marked as a success or not, and at verbose
   * level the response body when it is UTF-8 text; or the error's description.
   */
  function ResponseSection(result: DataResult, level: LogLevel, describe: Error -> string): (s: string)
    ensures result.Failure? ==> s == "Failed: \"" + describe(result.error) + "\""
    ensures result.Success? ==>
              var status := "StatusCode: " + (if Successful(result.value) then SuccessMark else FailureMark)
                            + " " + IntText(StatusCode(result.value));
              && (level == Info || Decode(result.value.data).None? ==> s == status)
              && (level == Verbose && Decode(result.value.data).Some? ==> s == status + "\n" + Decode(result.value.data).value)
  {
    match result
    case Success(response) =>
      var status := "StatusCode: " + (if Successful(response) then SuccessMark else FailureMark) + " " + IntText(StatusCode(response));
      if level == Verbose && Decode(response.data).Some? then status + "\n" + Decode(response.data).value else status
    case Failure(e) => "Failed: \"" + describe(e) + "\""
  }

  function Sections(id: Uuid, took: int, request: Request, result: DataResult, level: LogLevel, describe: Error -> string): seq<string> {
    [IdSection(id, took), RequestSection(request, level), ResponseSection(result, level, describe)]
  }

  /** At info level no body reaches the log: requests and replies that differ only in their bodies log the same. */
  lemma InfoHidesBodies(id: Uuid, took: int, request: Request, body: Option<Bytes>, result: DataResult, data: Bytes,
                        describe: Error -> string)
    ensures var other := if result.Success? then Success(result.value.(data := data)) else result;
            Sections(id, took, request, result, Info, describe)
            == Sections(id, took, request.(body := body), other, Info, describe)
  {
  }

  /** At verbose level a UTF-8 body is logged verbatim on the lines after the summary. */
  lemma VerboseShowsBodies(request: Request, text: string, response: DataResponse, reply: string, describe: Error -> string)
    ensures RequestSection(request.(body := Some(Encode(text))), Verbose)
            == RequestSection(request.(body := None), Verbose) + "\n" + text
    ensures ResponseSection(Success(response.(data := Encode(reply))), Verbose, describe)
            == ResponseSection(Success(response.(data := Encode(reply))), Info, describe) + "\n" + reply
  {
    DecodeEncode(text);
    DecodeEncode(reply);
  }

  /** Every line of every section, in order. */
  function AllLines(sections: seq<string>): (lines: seq<string>)
    ensures ProperLines(lines)
  {
    if sections == [] then [] else SplitLines(sections[0]) + AllLines(sections[1..])
  }

  /** `maxLineCount`: the longest line of any section, 1 when there is none, never more than 200. */
  function MaxLineCount(sections: seq<string>): (m: int)
    ensures 1 <= m <= 200
    ensures AllLines(sections) == [] ==> m == 1
    ensures AllLines(sections) != [] ==> m == if MaxLength(AllLines(sections)).value < 200 then MaxLength(AllLines(sections)).value else 200
  {
    var longest := MaxLength(AllLines(sections)).GetOr(1);
    if longest < 200 then longest else 200
  }

  /** Section `i` boxed to the shared width, with a `-` rule under every section but the last. */
  function SectionText(sections: seq<string>, i: nat, largest: int): string
    requires i < |sections| && largest >= 1
  {
    BoxedSpec(sections[i], None, if i == |sections| - 1 then None else Some("-"), Some(largest), false) + "\n"
  }

  /** The message built from the first `n` sections. */
  function MessageUpTo(sections: seq<string>, n: nat, largest: int): string
    requires n <= |sections| && largest >= 1
  {
    if n == 0 then "" else MessageUpTo(sections, n - 1, largest) + SectionText(sections, n - 1, largest)
  }

  /** What `print(sections:)` writes: the whole message boxed again between `=` rules. */
  function PrintedSpec(sections: seq<string>): string {
    var message := MessageUpTo(sections, |sections|, MaxLineCount(sections));
    SelfSizedBox(message, Some("="), Some("="));
    BoxedSpec(message, Some("="), Some("="), None, false)
  }

  /** One turn of the `forEach`: section `i` can be boxed, and the message grows by its box and a newline. */
  lemma SectionStep(sections: seq<string>, i: nat, largest: int)
    requires i < |sections| && largest >= 1
    ensures CanBox(sections[i], None, if i == |sections| - 1 then None else Some("-"), Some(largest), false)
    ensures MessageUpTo(sections, i + 1, largest)
            == MessageUpTo(sections, i, largest)
               + BoxedSpec(sections[i], None, if i == |sections| - 1 then None else Some("-"), Some(largest), false) + "\n"
  {
    assert Width(SplitLines(sections[i]), Some(largest)) == Some(BoxWidth(largest));
  }

  /** `print(sections:)`: the sections are boxed and appended in turn, then the message is boxed. */
  method Print(sections: seq<string>) returns (printed: string)
    ensures printed == PrintedSpec(sections)
  {
    var largest := MaxLineCount(sections);
    var message := "";
    var i := 0;
    while i < |sections|
      invariant 0 <= i <= |sections|
      invariant message == MessageUpTo(sections, i, largest)
    {
      var bottom := if i == |sections| - 1 then None else Some("-");
      SectionStep(sections, i, largest);
      var section := Boxed(sections[i], None, bottom, Some(largest), false);
      message := message + section + "\n";
      i := i + 1;
    }
    assert message == MessageUpTo(sections, |sections|, MaxLineCount(sections));
    SelfSizedBox(message, Some("="), Some("="));
    printed := Boxed(message, Some("="), Some("="), None, false);
  }

  /** Splitting text that ends at a newline splits each part on its own. */
  lemma {:induction false} SplitAfterNewline(a: string, b: string, pending: string)
    requires a != [] && a[|a| - 1] == '\n' && '\n' !in pending
    ensures SplitFrom(a + b, pending) == SplitFrom(a, pending) + SplitLines(b)
    decreases |a|
  {
    assert (a + b)[0] == a[0] && (a + b)[1..] == a[1..] + b;
    if a[0] == '\n' {
      if |a| == 1 {
        assert a[1..] + b == b;
        assert SplitFrom(a[1..], "") == [];
      } else {
        SplitAfterNewline(a[1..], b, "");
      }
    } else {
      SplitAfterNewline(a[1..], b, pending + [a[0]]);
    }
  }

  /** The lines one boxed section reads back as: its own lines indented, then the `-` rule unless it is last. */
  function SectionLines(sections: seq<string>, i: nat, largest: int): seq<string>
    requires i < |sections| && largest >= 1
  {
    Indented(SplitLines(sections[i])) + (if i == |sections| - 1 then [] else [Repeating("-", BoxWidth(largest))])
  }

  function MessageLines(sections: seq<string>, n: nat, largest: int): seq<string>
    requires n <= |sections| && largest >= 1
  {
    if n == 0 then [] else MessageLines(sections, n - 1, largest) + SectionLines(sections, n - 1, largest)
  }

  /** Indented proper lines, joined, read back as themselves; what follows reads back on its own. */
  lemma IndentedReadsBack(lines: seq<string>, tail: string)
    requires ProperLines(lines)
    ensures SplitLines(JoinLines(Indented(lines)) + tail) == Indented(lines) + SplitLines(tail)
  {
    var indented := Indented(lines);
    assert ProperLines(indented) by {
      forall k | 0 <= k < |indented| ensures indented[k] != "" && '\n' !in indented[k] {
        assert indented[k] == " " + lines[k];
        assert '\n' !in lines[k];
      }
    }
    SplitJoinLines(indented, tail);
  }

  /** A `-` rule and its newline read back as the rule. */
  lemma RuleReadsBack(width: nat)
    requires width > 0
    ensures SplitLines(Repeating("-", width) + "\n") == [Repeating("-", width)]
  {
    var rule := Repeating("-", width);
    RuleIsProperLine("-", width);
    assert JoinLines([rule]) + "" == rule + "\n";
    SplitJoinLines([rule], "");
  }

  lemma NewlineAlone()
    ensures SplitLines("\n") == []
  {
    assert "\n"[0] == '\n' && "\n"[1..] == "";
  }

  /** Every boxed section ends at a newline. */
  lemma SectionEndsAtNewline(sections: seq<string>, i: nat, largest: int)
    requires i < |sections| && largest >= 1
    ensures SectionText(sections, i, largest) != []
    ensures SectionText(sections, i, largest)[|SectionText(sections, i, largest)| - 1] == '\n'
  {
  }

  /** The last section, boxed with no rule, reads back as its lines indented. */
  lemma LastSectionReadsBack(text: string, largest: int)
    requires largest >= 1
    ensures SplitLines(BoxedSpec(text, None, None, Some(largest), false) + "\n") == Indented(SplitLines(text))
  {
    var lines := SplitLines(text);
    UncentredBox(text, None, None, largest);
    assert BoxedSpec(text, None, None, Some(largest), false) + "\n" == JoinLines(Indented(lines)) + "\n";
    IndentedReadsBack(lines, "\n");
    NewlineAlone();
    assert Indented(lines) + [] == Indented(lines);
  }

  /** Any other section reads back as its lines indented, then its `-` rule. */
  lemma RuledSectionReadsBack(text: string, largest: int)
    requires largest >= 1
    ensures SplitLines(BoxedSpec(text, None, Some("-"), Some(largest), false) + "\n")
            == Indented(SplitLines(text)) + [Repeating("-", BoxWidth(largest))]
  {
    var lines := SplitLines(text);
    var w := BoxWidth(largest);
    UncentredBox(text, None, Some("-"), largest);
    var tail := Repeating("-", w) + "\n";
    assert BoxedSpec(text, None, Some("-"), Some(largest), false) + "\n" == JoinLines(Indented(lines)) + tail;
    IndentedReadsBack(lines, tail);
    RuleReadsBack(w);
  }

  lemma SectionReadsBack(sections: seq<string>, i: nat, largest: int)
    requires i < |sections| && largest >= 1
    ensures SplitLines(SectionText(sections, i, largest)) == SectionLines(sections, i, largest)
  {
    if i == |sections| - 1 {
      LastSectionReadsBack(sections[i], largest);
    } else {
      RuledSectionReadsBack(sections[i], largest);
    }
  }

  /** A non-empty message ends at a newline. */
  lemma MessageEndsAtNewline(sections: seq<string>, n: nat, largest: int)
    requires 0 < n <= |sections| && largest >= 1
    ensures MessageUpTo(sections, n, largest)[|MessageUpTo(sections, n, largest)| - 1] == '\n'
  {
    var before := MessageUpTo(sections, n - 1, largest);
    var section := SectionText(sections, n - 1, largest);
    SectionEndsAtNewline(sections, n - 1, largest);
    assert MessageUpTo(sections, n, largest) == before + section;
  }

  lemma {:induction false} MessageReadsBack(sections: seq<string>, n: nat, largest: int)
    requires n <= |sections| && largest >= 1
    ensures SplitLines(MessageUpTo(sections, n, largest)) == MessageLines(sections, n, largest)
  {
    if n > 0 {
      var before := MessageUpTo(sections, n - 1, largest);
      var section := SectionText(sections, n - 1, largest);
      assert MessageUpTo(sections, n, largest) == before + section;
      assert MessageLines(sections, n, largest) == MessageLines(sections, n - 1, largest) + SectionLines(sections, n - 1, largest);
      MessageReadsBack(sections, n - 1, largest);
      SectionReadsBack(sections, n - 1, largest);
      SectionEndsAtNewline(sections, n - 1, largest);
      if n > 1 {
        MessageEndsAtNewline(sections, n - 1, largest);
      }
      ConcatReadsBack(before, section);
    }
  }

  /** Text that ends at a newline, followed by more such text, reads back piece by piece. */
  lemma ConcatReadsBack(a: string, b: string)
    requires a == [] || a[|a| - 1] == '\n'
    requires b != [] && b[|b| - 1] == '\n'
    ensures SplitLines(a + b) == SplitLines(a) + SplitLines(b)
    ensures (a + b)[|a + b| - 1] == '\n'
  {
    if a == [] {
      assert a + b == b;
    } else {
      SplitAfterNewline(a, b, "");
    }
  }

  lemma {:induction false} FramedMessage(sections: seq<string>, largest: int)
    requires largest >= 1 && MessageLines(sections, |sections|, largest) != []
    ensures var lines := MessageLines(sections, |sections|, largest);
            var w := Width(lines, None).value;
            SplitLines(BoxedSpec(MessageUpTo(sections, |sections|, largest), Some("="), Some("="), None, false))
            == [Repeating("=", w)] + Indented(lines) + [Repeating("=", w)]
  {
    var message := MessageUpTo(sections, |sections|, largest);
    MessageReadsBack(sections, |sections|, largest);
    BoxedLayout(message, "=", "=", None);
  }

  /**
   * The printed layout: an `=` rule, every line of every section indented (one more
   * space for the outer box), each section but the last followed by its `-` rule,
   * and a closing `=` rule; both `=` rules span the outer box.
   */
  lemma PrintedLayout(sections: seq<string>)
    requires MessageLines(sections, |sections|, MaxLineCount(sections)) != []
    ensures var lines := MessageLines(sections, |sections|, MaxLineCount(sections));
            var w := Width(lines, None).value;
            SplitLines(PrintedSpec(sections)) == [Repeating("=", w)] + Indented(lines) + [Repeating("=", w)]
  {
    FramedMessage(sections, MaxLineCount(sections));
  }

  class LogInterceptor {
    var level: LogLevel
    /** Start times of the requests in flight, by identifier. */
    var durations: map<Uuid, int>

    constructor(level: LogLevel)
      ensures this.level == level && durations == map[]
    {
      this.level := level;
      durations := map[];
    }

    /** `init()`: the level defaults to info. */
    constructor Default()
      ensures level == Info && durations == map[]
    {
      level := Info;
      durations := map[];
    }

    /** The modify hook records when the request started and passes it on unchanged. */
    method ModifyRequest(request: Request, id: Uuid, now: int) returns (reply: ModifyReply)
      modifies this`durations
      ensures durations == old(durations)[id := now]
      ensures reply == Replied(Some(request))
    {
      durations := durations[id := now];
      reply := Replied(Some(request));
    }

    /**
     * The response hook forgets the start time, prints the three sections (a missing
     * start counts as now, so the request took 0) and never takes over the completion.
     */
    method DidReceive(result: DataResult, request: Request, id: Uuid, now: int, describe: Error -> string)
      returns (claimed: bool, printed: string)
      modifies this`durations
      ensures durations == old(durations) - {id} && id !in durations
      ensures !claimed
      ensures printed == PrintedSpec(Sections(id, Elapsed(old(durations), id, now), request, result, level, describe))
    {
      var sections := Sections(id, Elapsed(durations, id, now), request, result, level, describe);
      durations := durations - {id};
      printed := Print(sections);
      claimed := false;
    }
  }

  /** A request seen by both hooks is logged with the time between them, and nothing is left behind. */
  method TimedRequest(level: LogLevel, request: Request, id: Uuid, started: int, finished: int,
                      result: DataResult, describe: Error -> string)
    returns (reply: ModifyReply, printed: string)
    ensures reply == Replied(Some(request))
    ensures printed == PrintedSpec(Sections(id, finished - started, request, result, level, describe))
  {
    var log := new LogInterceptor(level);
    reply := log.ModifyRequest(request, id, started);
    assert Elapsed(log.durations, id, finished) == finished - started;
    var claimed;
    claimed, printed := log.DidReceive(result, request, id, finished, describe);
    assert log.level == level;
  }

  /** The interceptor as the pipeline sees it: it forwards every request and claims no response. */
  function AsInterceptor(): (ic: Interceptor)
    ensures forall r :: ic.modifyRequest(r) == Replied(Some(r))
    ensures forall r, res :: !ic.didReceive(res, r)
  {
    Interceptor(r => Replied(Some(r)), DefaultWillSend, (res, r) => false)
  }

  /** Logging never changes the traffic: with the log interceptor a request goes out and comes back as without it. */
  lemma LoggingIsTransparent(request: Request, id: Uuid, output: TaskOutput)
    ensures SendSpec([AsInterceptor()], false, request, id, output).steps
            == SendSpec([Defaults], false, request, id, output).steps
  {
    var ics := [AsInterceptor()];
    var result := TransformToResult(output);
    assert ics[0].modifyRequest(request) == Replied(Some(request));
    assert SendAnswers(ics, request)[0] == ics[0].willSend(request).Claim?;
    assert ReceiveAnswers(ics, result, request)[0] == ics[0].didReceive(result, request);
    assert FirstClaim(SendAnswers(ics, request)).None?;
    assert FirstClaim(ReceiveAnswers(ics, result, request)).None?;
    assert ModifyLoop(ics, id, request, false, false, 1) == Run([], Finished(request, false), false);
    assert ModifyLoop(ics, id, request, false, false, 0).steps == [Modified(0, request)] + [];
    assert PreSendAndNetwork(ics, request, output) == [Sent(request), Delivered(StatusChecked(result))];
    SendProperties.DefaultsAreTransparent(request, id, output);
  }
}
