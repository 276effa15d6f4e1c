// The loggers that write into the current TUnit test context: a level
// tag from a fixed table, optional category and event parts, then the
// message and a line break only when there is a message.

module TUnitLogging {
  import opened Common
  import opened Logging

  const LogLevels: seq<string> := ["trce", "debg", "info", "warn", "fail", "crit"]

  /** Environment.NewLine, fixed to a line feed. */
  const NewLine: string := "\n"

  /** PrepareLog's level text: the table entry for 0..5, else the value in
    * the "0000" format. */
  function LevelText(level: LogLevel): (r: string)
    ensures 0 <= level < |LogLevels| ==> r == LogLevels[level] && |r| == 4 && 'a' <= r[0] <= 'z'
    ensures !(0 <= level < |LogLevels|) ==> |r| >= 4 && (r[0] == '-' || IsDigit(r[0]))
  {
    if level < 0 || level >= |LogLevels| then FormatInt0000(level) else LogLevels[level]
  }

  /** Different levels never share a level text. */
  lemma LevelTextInjective(a: LogLevel, b: LogLevel)
    ensures LevelText(a) == LevelText(b) ==> a == b
  {
    if LevelText(a) == LevelText(b) {
      var inA := 0 <= a < |LogLevels|;
      var inB := 0 <= b < |LogLevels|;
      if inA && inB {
        assert LogLevels[a] == LogLevels[b];
        assert LogLevels[a][0] == LogLevels[b][0] && LogLevels[a][1] == LogLevels[b][1];
      } else if !inA && !inB {
        var pa := FormatInt0000Shape(a);
        var pb := FormatInt0000Shape(b);
        if a < 0 {
          assert FormatInt0000(b)[0] == '-';
          assert b < 0;
          assert pa == FormatInt0000(a)[1..] == pb;
        } else {
          assert FormatInt0000(b)[0] != '-';
          assert b >= 0;
          assert "" + pa == pa && "" + pb == pb;
          assert pa == pb;
        }
      }
    }
  }

  /** IsEnabled: every level that has a tag in the level table is enabled,
    * and None, which has none, is the one level that is not. */
  predicate IsEnabled(level: LogLevel): (r: bool)
    ensures 0 <= level < |LogLevels| ==> r
    ensures r <==> level != LevelNone
    ensures !(0 <= LevelNone < |LogLevels|)
  {
    level != LevelNone
  }

  /** BeginScope returns no scope. */
  function BeginScope<S>(state: S): (r: Option<nat>)
    ensures r.None?
  {
    None
  }

  /** The text one Log call writes: "[level]", "[category]" when the
    * category is non-empty, "[event]" when the event text is non-empty,
    * and " message" with a line break when the message is non-empty. */
  function FormatLine(levelText: string, category: string, eventText: string, message: Option<string>): string
  {
    LevelPart(levelText) + CategoryPart(category) + EventPart(eventText) + MessagePart(message)
  }

  function LevelPart(levelText: string): string { "[" + levelText + "]" }

  function CategoryPart(category: string): string
  {
    if |category| > 0 then "[" + category + "]" else ""
  }

  function EventPart(eventText: string): string
  {
    if |eventText| > 0 then "[" + eventText + "]" else ""
  }

  function MessagePart(message: Option<string>): string
  {
    if message.Some? && |message.value| > 0 then " " + message.value + NewLine else ""
  }

  /** The shape of a line: it opens with the level part, followed by the
    * category part when there is a category; it ends with a line break
    * exactly when there is a non-empty message, which then comes last;
    * with no message the line ends in ']'. */
  lemma FormatLineShape(levelText: string, category: string, eventText: string, message: Option<string>)
    ensures var line := FormatLine(levelText, category, eventText, message);
      |line| >= |levelText| + 2 && line[..|levelText| + 2] == "[" + levelText + "]"
    ensures var line := FormatLine(levelText, category, eventText, message);
      message.Some? && |message.value| > 0 ==>
        |line| >= |message.value| + 2 && line[|line| - |message.value| - 2..] == " " + message.value + NewLine
    ensures var line := FormatLine(levelText, category, eventText, message);
      !(message.Some? && |message.value| > 0) ==> line[|line| - 1] == ']'
    ensures var line := FormatLine(levelText, category, eventText, message);
      |category| > 0 ==>
        |line| >= |levelText| + |category| + 4 && line[|levelText| + 2..|levelText| + |category| + 4] == "[" + category + "]"
  {
    LineOpensWithLevel(levelText, category, eventText, message);
    LineEndsWithMessage(levelText, category, eventText, message);
    LineWithoutMessageEndsInBracket(levelText, category, eventText, message);
    LineCategoryFollowsLevel(levelText, category, eventText, message);
  }

  lemma LineOpensWithLevel(levelText: string, category: string, eventText: string, message: Option<string>)
    ensures var line := FormatLine(levelText, category, eventText, message);
      |line| >= |levelText| + 2 && line[..|levelText| + 2] == "[" + levelText + "]"
  {
    var head := LevelPart(levelText);
    var cat := CategoryPart(category);
    var ev := EventPart(eventText);
    TakeOfAppend(head + cat + ev, MessagePart(message), |head|);
    TakeOfAppend(head + cat, ev, |head|);
    TakeOfAppend(head, cat, |head|);
  }

  lemma LineEndsWithMessage(levelText: string, category: string, eventText: string, message: Option<string>)
    ensures var line := FormatLine(levelText, category, eventText, message);
      message.Some? && |message.value| > 0 ==>
        |line| >= |message.value| + 2 && line[|line| - |message.value| - 2..] == " " + message.value + NewLine
  {
    DropOfAppend(LevelPart(levelText) + CategoryPart(category) + EventPart(eventText), MessagePart(message));
  }

  lemma LineWithoutMessageEndsInBracket(levelText: string, category: string, eventText: string, message: Option<string>)
    ensures var line := FormatLine(levelText, category, eventText, message);
      !(message.Some? && |message.value| > 0) ==> line[|line| - 1] == ']'
  {
    var head := LevelPart(levelText);
    var cat := CategoryPart(category);
    var ev := EventPart(eventText);
    if MessagePart(message) == [] {
      EndsInBracket(head + cat + ev, MessagePart(message));
      EndsInBracket(head + cat, ev);
      if ev == [] {
        EndsInBracket(head, cat);
      }
    }
  }

  lemma LineCategoryFollowsLevel(levelText: string, category: string, eventText: string, message: Option<string>)
    ensures var line := FormatLine(levelText, category, eventText, message);
      |category| > 0 ==>
        |line| >= |levelText| + |category| + 4 && line[|levelText| + 2..|levelText| + |category| + 4] == "[" + category + "]"
  {
    var head := LevelPart(levelText);
    var cat := CategoryPart(category);
    var ev := EventPart(eventText);
    var n := |head| + |cat|;
    TakeOfAppend(head + cat + ev, MessagePart(message), n);
    TakeOfAppend(head + cat, ev, n);
    DropOfAppend(head, cat);
  }

  /** Taking no more than the first part of a concatenation takes from
    * the first part alone. */
  lemma TakeOfAppend(a: string, b: string, n: nat)
    requires n <= |a|
    ensures (a + b)[..n] == a[..n]
  {
  }

  lemma DropOfAppend(a: string, b: string)
    ensures (a + b)[|a|..] == b
  {
  }

  /** A text ends in ']' when it is a text followed by a part that ends
    * in ']', or by nothing after a text that does. */
  lemma EndsInBracket(a: string, b: string)
    ensures b != [] && b[|b| - 1] == ']' ==> (a + b)[|a + b| - 1] == ']'
    ensures b == [] && a != [] && a[|a| - 1] == ']' ==> (a + b)[|a + b| - 1] == ']'
  {
    if b == [] {
      assert a + b == a;
    }
  }

  /** A StringWriter: the text written so far. */
  class StringWriter {
    var text: string

    constructor ()
      ensures text == ""
    {
      text := "";
    }

    method Write(s: string)
      modifies this
      ensures text == old(text) + s
    {
      text := text + s;
    }
  }

  /** The TUnit test context's two writers. */
  class TestContext {
    const outputWriter: StringWriter
    const errorOutputWriter: StringWriter

    constructor (outputWriter: StringWriter, errorOutputWriter: StringWriter)
      ensures this.outputWriter == outputWriter && this.errorOutputWriter == errorOutputWriter
    {
      this.outputWriter := outputWriter;
      this.errorOutputWriter := errorOutputWriter;
    }
  }

  /** GetContextWriter: levels below Error (Trace to Warning, and any
    * negative value) go to the output writer; Error, Critical, None and
    * anything above go to the error writer. */
  function GetContextWriter(context: TestContext, level: LogLevel): (w: StringWriter)
    ensures level < LevelError ==> w == context.outputWriter
    ensures LevelError <= level ==> w == context.errorOutputWriter
  {
    if level < LevelError then context.outputWriter else context.errorOutputWriter
  }

  lemma Assoc(a: string, b: string, c: string)
    ensures a + b + c == a + (b + c)
  {
  }

  /** Writes the parts of one line in order, as the loggers do. */
  method WriteLine(writer: StringWriter, levelText: string, category: string, eventText: string, message: Option<string>)
    modifies writer
    ensures writer.text == old(writer.text) + FormatLine(levelText, category, eventText, message)
  {
    ghost var t0 := writer.text;
    writer.Write("[");
    writer.Write(levelText);
    Assoc(t0, "[", levelText);
    writer.Write("]");
    Assoc(t0, "[" + levelText, "]");
    ghost var t1 := writer.text;
    assert t1 == t0 + LevelPart(levelText);
    if |category| > 0 {
      writer.Write("[");
      writer.Write(category);
      Assoc(t1, "[", category);
      writer.Write("]");
      Assoc(t1, "[" + category, "]");
    }
    ghost var t2 := writer.text;
    assert t2 == t1 + CategoryPart(category);
    if |eventText| > 0 {
      writer.Write("[" + eventText + "]");
    }
    ghost var t3 := writer.text;
    assert t3 == t2 + EventPart(eventText);
    if message.Some? && |message.value| > 0 {
      writer.Write(" ");
      writer.Write(message.value + NewLine);
      Assoc(t3, " ", message.value + NewLine);
      Assoc(" ", message.value, NewLine);
    }
    assert writer.text == t3 + MessagePart(message);
    Assoc(t0, LevelPart(levelText), CategoryPart(category));
    Assoc(t0, LevelPart(levelText) + CategoryPart(category), EventPart(eventText));
    Assoc(t0, LevelPart(levelText) + CategoryPart(category) + EventPart(eventText), MessagePart(message));
  }

  /** The MsExtLogging TUnit logger: no category part, and the writer
    * chosen by level. The message is what the formatter produced (null
    * when there is no formatter). */
  class TUnitLogger {
    const name: string

    constructor (name: string)
      ensures this.name == name
    {
      this.name := name;
    }

    method Log(context: TestContext, level: LogLevel, eventId: EventId, message: Option<string>)
      modifies GetContextWriter(context, level)
      ensures var w := GetContextWriter(context, level);
        w.text == old(w.text) + FormatLine(LevelText(level), "", EventIdText(eventId), message)
    {
      var levelText := LevelText(level);
      var writer := GetContextWriter(context, level);
      WriteLine(writer, levelText, "", EventIdText(eventId), message);
    }
  }

  /** The Hosting TUnit logger: its name as the category part, and always
    * the output writer. */
  class HostingTUnitLogger {
    const name: string

    constructor (name: string)
      ensures this.name == name
    {
      this.name := name;
    }

    method Log(context: TestContext, level: LogLevel, eventId: EventId, message: Option<string>)
      modifies context.outputWriter
      ensures context.outputWriter.text == old(context.outputWriter.text) + FormatLine(LevelText(level), name, EventIdText(eventId), message)
    {
      var levelText := LevelText(level);
      WriteLine(context.outputWriter, levelText, name, EventIdText(eventId), message);
    }
  }
}
