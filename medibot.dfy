/** The MediBot chat component: its keyword replies, the send and upload
    handlers over the message list, the text it makes of an analysed
    report, and starting a new chat. Rendering, speech and the network are
    not modelled; what the services answer is an input. */
module MediBot {
  import opened TextUtil
  import opened ChatService
  import opened TestStatus
  import opened TestResults

  datatype Sender = User | Bot
  datatype FileInfo = FileInfo(name: string, summary: Option<string>)
  /** A chat message; its timestamp is not modelled. */
  datatype Message = Message(id: string, text: string, sender: Sender, file: Option<FileInfo>)

  const Welcome := "Hello! I'm MediBot, your AI Health Assistant powered by SwasthAI's n8n workflow and Ollama. I can help you with symptom analysis and traditional Indian home remedies. How can I help you today?"

  // ---------------------------------------------------------------------
  // getBotResponse
  // ---------------------------------------------------------------------

  const GreetingReply := "Hello! I'm here to assist you with your health queries. What would you like to know?"
  const PainReply := "For headaches, try resting in a quiet, dark room and staying hydrated. If pain persists or worsens, please consult a healthcare professional."
  const FeverReply := "For fever, rest, stay hydrated, and monitor your temperature. If it exceeds 103\U{00B0}F (39.4\U{00B0}C) or persists for more than 3 days, seek medical attention."
  const ThanksReply := "You're welcome! Remember, I'm here whenever you need health guidance. Stay healthy! \U{1F499}"
  const DefaultReply := "I understand your concern. While I can provide general health information, please consult a qualified healthcare professional for personalized medical advice and diagnosis."

  predicate Greets(input: string) { Contains(input, "hello") || Contains(input, "hi") }
  predicate MentionsPain(input: string) { Contains(input, "headache") || Contains(input, "pain") }
  predicate MentionsFever(input: string) { Contains(input, "fever") || Contains(input, "temperature") }
  predicate Thanks(input: string) { Contains(input, "thank") }

  /** Which of the canned replies getBotResponse gives. */
  datatype Reply = Greeting | Pain | Fever | Welcomed | Fallback

  function ReplyText(r: Reply): string {
    match r
    case Greeting => GreetingReply
    case Pain => PainReply
    case Fever => FeverReply
    case Welcomed => ThanksReply
    case Fallback => DefaultReply
  }

  /** The keyword groups, tried in order on the lower-cased input. */
  function ChooseReply(input: string): Reply {
    if Greets(input) then Greeting
    else if MentionsPain(input) then Pain
    else if MentionsFever(input) then Fever
    else if Thanks(input) then Welcomed
    else Fallback
  }

  /** getBotResponse. */
  function BotResponse(userInput: string): string {
    ReplyText(ChooseReply(ToLower(userInput)))
  }

  /** The reply ignores case: inputs equal up to case get the same reply,
      and lower-casing first changes nothing. */
  lemma BotResponseIgnoresCase(s: string, t: string)
    ensures ToLower(s) == ToLower(t) ==> BotResponse(s) == BotResponse(t)
    ensures BotResponse(ToLower(s)) == BotResponse(s)
  {
    ToLowerIdempotent(s);
  }

  /** The groups are tried in order, each one only when every earlier one
      found no keyword, and the default reply comes exactly when no keyword
      of any group occurs. */
  lemma ReplyOrder(input: string)
    ensures ChooseReply(input) == Greeting <==> Greets(input)
    ensures ChooseReply(input) == Pain <==> !Greets(input) && MentionsPain(input)
    ensures ChooseReply(input) == Fever <==> !Greets(input) && !MentionsPain(input) && MentionsFever(input)
    ensures ChooseReply(input) == Welcomed <==>
      !Greets(input) && !MentionsPain(input) && !MentionsFever(input) && Thanks(input)
    ensures ChooseReply(input) == Fallback <==>
      !Greets(input) && !MentionsPain(input) && !MentionsFever(input) && !Thanks(input)
  {
  }

  /** "this headache", in any case, contains "hi" (in "this"), so it is
      greeted rather than given the headache reply. */
  lemma ThisHeadacheIsGreeted(s: string)
    requires ToLower(s) == "this headache"
    ensures ChooseReply(ToLower(s)) == Greeting && BotResponse(s) == GreetingReply
  {
    var l := "this headache";
    assert PrefixAt(l, 1, "hi");
    ContainsFromWitness(l, "hi", 0, 1);
  }

  const ThanksPain := "thank you, the pain"

  lemma NoHelloInThanksPain()
    ensures !Contains(ThanksPain, "hello")
  {
    assert !MatchAt(ThanksPain, "hello", 1, 1);
    assert !MatchAt(ThanksPain, "hello", 12, 2);
    NotContainsFrom(ThanksPain, "hello", 0);
  }

  lemma NoHiInThanksPain()
    ensures !Contains(ThanksPain, "hi")
  {
    assert !MatchAt(ThanksPain, "hi", 1, 1);
    assert !MatchAt(ThanksPain, "hi", 12, 1);
    NotContainsFrom(ThanksPain, "hi", 0);
  }

  /** "thank you, the pain", in any case, has no greeting word, so the pain
      group answers before the thanks group. */
  lemma ThanksWithPainGetsPainReply(s: string)
    requires ToLower(s) == ThanksPain
    ensures ChooseReply(ToLower(s)) == Pain && BotResponse(s) == PainReply
  {
    NoHelloInThanksPain();
    NoHiInThanksPain();
    assert PrefixAt(ThanksPain, 15, "pain");
    ContainsFromWitness(ThanksPain, "pain", 0, 15);
  }

  // ---------------------------------------------------------------------
  // The reply to a sent message
  // ---------------------------------------------------------------------

  const UnavailableNote := "\n\n\U{26A0}\U{FE0F} Note: AI service is temporarily unavailable. Please consult a healthcare professional for accurate medical advice."
  const NoConnectionNote := "\n\n\U{26A0}\U{FE0F} Note: Unable to connect to AI service. Please ensure the backend is running. For medical concerns, consult a healthcare professional."

  /** The bot's reply to a sent text: the service's answer, its error, or
      the local keyword reply with a note saying why. */
  function BotReply(userInput: string, outcome: TextOutcome): string {
    match outcome
    case Answered(p, f) => AnsweredText(p, f)
    case Refused(e) => Or(e, BotResponse(userInput) + UnavailableNote)
    case NoConnection => BotResponse(userInput) + NoConnectionNote
  }

  /** The reply is never empty; without a service answer or error text the
      local reply for the input is given, followed by the matching note. */
  lemma BotReplyProps(userInput: string, outcome: TextOutcome)
    ensures BotReply(userInput, outcome) != []
    ensures outcome == Refused([]) ==> BotReply(userInput, outcome) == BotResponse(userInput) + UnavailableNote
    ensures outcome.Refused? && outcome.error != [] ==> BotReply(userInput, outcome) == outcome.error
    ensures outcome.NoConnection? ==>
      BotReply(userInput, outcome)[..|BotResponse(userInput)|] == BotResponse(userInput)
  {
  }

  // ---------------------------------------------------------------------
  // The report formatter
  // ---------------------------------------------------------------------

  /** The properties of a test result object that either side names:
      `test`, `testName`, `value`, `unit`, `range`, `referenceRange`,
      `status`. */
  datatype Property = TestProp | TestNameProp | ValueProp | UnitProp | RangeProp | ReferenceRangeProp | StatusProp

  /** A test result object: its present properties, each as the text it
      prints as. */
  type JsObject = map<Property, string>

  /** The property as a template literal prints it. */
  function Field(obj: JsObject, key: Property): string {
    if key in obj then obj[key] else "undefined"
  }

  predicate Truthy(obj: JsObject, key: Property) { key in obj && obj[key] != [] }

  /** The analysis service's `{ success, patientInfo, testResults, summary }`;
      patient information is its entries in order, an absent value empty. */
  datatype ReportData = ReportData(success: bool, patientInfo: Option<seq<(string, string)>>,
                                   testResults: Option<seq<JsObject>>, summary: Option<string>)

  const ReportHeading := "\U{1F4C4} **Medical Report Analysis**\n\n"
  const PatientHeading := "\U{1F464} **Patient Information:**\n"
  const TestsHeading := "\U{1F52C} **Test Results:**\n"
  const SummaryHeading := "\U{1F4CB} **Summary:**\n"
  const ReportNote := "\n\n\U{26A0}\U{FE0F} **Note:** This is an automated analysis. Please consult a healthcare professional for proper medical interpretation."
  const Bullet := "\U{2022} "

  function InfoLine(e: (string, string)): string {
    Bullet + e.0 + ": " + e.1 + "\n"
  }

  /** The line of an entry, or nothing when its value is falsy. */
  function EntryLine(e: (string, string)): string {
    if e.1 != [] then InfoLine(e) else []
  }

  function EntryLines(es: seq<(string, string)>): (lines: seq<string>)
    ensures |lines| == |es|
  {
    seq(|es|, i requires 0 <= i < |es| => EntryLine(es[i]))
  }

  /** The lines of the patient entries whose value is truthy, in order. */
  function InfoLines(es: seq<(string, string)>): string {
    Concat(EntryLines(es))
  }

  /** The line `• caption: value`. */
  function Line(caption: string, value: string): string {
    Bullet + caption + ": " + value + "\n"
  }

  /** The line of a property, present only when the property is truthy. */
  function OptLine(caption: string, obj: JsObject, key: Property): string {
    if Truthy(obj, key) then Line(caption, obj[key]) else []
  }

  /** The bold name heading a test's block. */
  function NameLine(name: string): string {
    "\n**" + name + "**\n"
  }

  /** The block of one test, reading its name and its range under the
      given properties. */
  function TestBlockWith(obj: JsObject, nameKey: Property, rangeKey: Property): string {
    NameLine(Field(obj, nameKey)) + Line("Value", Field(obj, ValueProp)) +
    OptLine("Unit", obj, UnitProp) + OptLine("Reference", obj, rangeKey) + OptLine("Status", obj, StatusProp)
  }

  /** The block as the component writes it, reading `testName` and
      `referenceRange`. */
  function TestBlockAsWritten(obj: JsObject): string {
    TestBlockWith(obj, TestNameProp, ReferenceRangeProp)
  }

  /** The block reading the properties the analysis service sends, `test`
      and `range`, as the component evidently means to. */
  function TestBlock(obj: JsObject): string {
    TestBlockWith(obj, TestProp, RangeProp)
  }

  /** The block of each test, in order, read under the given properties. */
  function BlocksWith(ts: seq<JsObject>, nameKey: Property, rangeKey: Property): (blocks: seq<string>)
    ensures |blocks| == |ts|
  {
    seq(|ts|, i requires 0 <= i < |ts| => TestBlockWith(ts[i], nameKey, rangeKey))
  }

  /** The blocks `testResults.forEach` writes. */
  function TestBlocks(ts: seq<JsObject>): string {
    Concat(BlocksWith(ts, TestNameProp, ReferenceRangeProp))
  }

  function PatientSection(data: ReportData): string {
    if data.patientInfo.Some? then PatientHeading + InfoLines(data.patientInfo.value) + "\n" else []
  }

  function TestsSectionWith(data: ReportData, nameKey: Property, rangeKey: Property): string {
    if data.testResults.Some? && |data.testResults.value| > 0 then
      TestsHeading + Concat(BlocksWith(data.testResults.value, nameKey, rangeKey)) + "\n"
    else []
  }

  /** The tests section as the component writes it. */
  function TestsSection(data: ReportData): string {
    TestsSectionWith(data, TestNameProp, ReferenceRangeProp)
  }

  function SummarySection(data: ReportData): string {
    if data.summary.Some? && data.summary.value != [] then SummaryHeading + data.summary.value else []
  }

  function ReportTextWith(data: ReportData, nameKey: Property, rangeKey: Property): string {
    ReportHeading + PatientSection(data) + TestsSectionWith(data, nameKey, rangeKey) + SummarySection(data) + ReportNote
  }

  /** The bot's text for an analysed report, as the component writes it. */
  function ReportText(data: ReportData): string {
    ReportTextWith(data, TestNameProp, ReferenceRangeProp)
  }

  /** The text it evidently means to write, reading `test` and `range`. */
  function ReportTextIntended(data: ReportData): string {
    ReportTextWith(data, TestProp, RangeProp)
  }

  /** The formatter, accumulating its text section by section. */
  method ResultText(data: ReportData) returns (resultText: string)
    ensures resultText == ReportText(data)
  {
    resultText := ReportHeading;
    resultText := AppendPatientSection(resultText, data);
    resultText := AppendTestsSection(resultText, data);
    if data.summary.Some? && data.summary.value != [] {
      var start := resultText;
      resultText := resultText + SummaryHeading;
      resultText := resultText + data.summary.value;
      StringAssoc(start, SummaryHeading, data.summary.value);
    }
    resultText := resultText + ReportNote;
  }

  method AppendPatientSection(start: string, data: ReportData) returns (text: string)
    ensures text == start + PatientSection(data)
  {
    text := start;
    if data.patientInfo.Some? {
      text := text + PatientHeading;
      text := AppendInfoLines(text, data.patientInfo.value);
      text := text + "\n";
      var lines := InfoLines(data.patientInfo.value);
      StringAssoc(start, PatientHeading, lines);
      StringAssoc(start, PatientHeading + lines, "\n");
    }
  }

  method AppendTestsSection(start: string, data: ReportData) returns (text: string)
    ensures text == start + TestsSection(data)
  {
    text := start;
    if data.testResults.Some? && |data.testResults.value| > 0 {
      text := text + TestsHeading;
      text := AppendTestBlocks(text, data.testResults.value);
      text := text + "\n";
      var blocks := TestBlocks(data.testResults.value);
      StringAssoc(start, TestsHeading, blocks);
      StringAssoc(start, TestsHeading + blocks, "\n");
    }
  }

  /** `Object.entries(patientInfo).forEach(...)`. */
  method AppendInfoLines(start: string, es: seq<(string, string)>) returns (text: string)
    ensures text == start + InfoLines(es)
  {
    text := start;
    for i := 0 to |es|
      invariant text == start + InfoLines(es[..i])
    {
      assert es[..i + 1][..i] == es[..i];
      var line := EntryLine(es[i]);
      InfoLinesSnoc(es, i);
      StringAssoc(start, InfoLines(es[..i]), line);
      text := text + line;
    }
    assert es[..|es|] == es;
  }

  /** `testResults.forEach(...)`. */
  method AppendTestBlocks(start: string, ts: seq<JsObject>) returns (text: string)
    ensures text == start + TestBlocks(ts)
  {
    text := start;
    for i := 0 to |ts|
      invariant text == start + TestBlocks(ts[..i])
    {
      var block := TestBlockAsWritten(ts[i]);
      TestBlocksSnoc(ts, i);
      StringAssoc(start, TestBlocks(ts[..i]), block);
      text := text + block;
    }
    assert ts[..|ts|] == ts;
  }

  lemma TestBlocksSnoc(ts: seq<JsObject>, i: nat)
    requires i < |ts|
    ensures TestBlocks(ts[..i + 1]) == TestBlocks(ts[..i]) + TestBlockAsWritten(ts[i])
  {
    var blocks := BlocksWith(ts[..i + 1], TestNameProp, ReferenceRangeProp);
    assert blocks[..i] == BlocksWith(ts[..i], TestNameProp, ReferenceRangeProp);
  }

  lemma InfoLinesSnoc(es: seq<(string, string)>, i: nat)
    requires i < |es|
    ensures InfoLines(es[..i + 1]) == InfoLines(es[..i]) + EntryLine(es[i])
  {
    var lines := EntryLines(es[..i + 1]);
    assert lines[..i] == EntryLines(es[..i]);
  }

  /** Each entry with a truthy value has its line in the section. */
  lemma InfoLineListed(es: seq<(string, string)>, k: nat)
    requires k < |es| && es[k].1 != []
    ensures Contains(InfoLines(es), InfoLine(es[k]))
  {
    ConcatContains(EntryLines(es), k);
  }

  /** An entry with an empty value adds nothing. */
  lemma InfoLinesSkipEmpty(es: seq<(string, string)>, key: string)
    ensures InfoLines(es + [(key, [])]) == InfoLines(es)
  {
    var all := es + [(key, [])];
    assert all[..|es|] == es;
    InfoLinesSnoc(all, |es|);
    assert all[..|es| + 1] == all;
  }

  /** Whatever the data, the text starts with the heading and ends with the
      note. */
  lemma ReportFrame(data: ReportData)
    ensures ReportText(data)[..|ReportHeading|] == ReportHeading
    ensures ReportText(data)[|ReportText(data)| - |ReportNote|..] == ReportNote
  {
  }

  // ---------------------------------------------------------------------
  // The analysis service's tests as the formatter reads them
  // ---------------------------------------------------------------------

  function StatusName(st: Status): (name: string)
    ensures name != []
  {
    match st
    case Normal => "normal"
    case High => "high"
    case Low => "low"
    case Unknown => "unknown"
  }

  /** A test result as the analysis service sends it. */
  function ResultObject(t: TestResult): JsObject {
    map[TestProp := t.test, ValueProp := t.value, UnitProp := t.unit, RangeProp := t.range, StatusProp := StatusName(t.status)]
  }

  /** As written, the formatter prints every analysed test under the name
      "undefined" and never prints its reference range, whatever the range. */
  lemma AsWrittenLosesNameAndRange(t: TestResult)
    ensures OptLine("Reference", ResultObject(t), ReferenceRangeProp) == []
    ensures TestBlockAsWritten(ResultObject(t)) ==
      NameLine("undefined") + Line("Value", t.value) +
      OptLine("Unit", ResultObject(t), UnitProp) + Line("Status", StatusName(t.status))
  {
  }

  /** Reading `test` and `range`, the block is headed by the test's name,
      has a reference line exactly when the range is non-empty, and always
      has a status line. */
  lemma BlockShowsNameAndRange(t: TestResult)
    ensures TestBlock(ResultObject(t)) ==
      NameLine(t.test) + Line("Value", t.value) +
      OptLine("Unit", ResultObject(t), UnitProp) +
      (if t.range != [] then Line("Reference", t.range) else []) +
      Line("Status", StatusName(t.status))
  {
  }

  /** Each test's block, read under the given properties, occurs in the
      report built from them. */
  lemma ReportContainsBlock(data: ReportData, k: nat, nameKey: Property, rangeKey: Property)
    requires data.testResults.Some? && k < |data.testResults.value|
    ensures Contains(ReportTextWith(data, nameKey, rangeKey), TestBlockWith(data.testResults.value[k], nameKey, rangeKey))
  {
    var blocks := BlocksWith(data.testResults.value, nameKey, rangeKey);
    ConcatContains(blocks, k);
    ReportTextSplit(data, nameKey, rangeKey);
    ContainsInfix(ReportHeading + PatientSection(data) + TestsHeading, Concat(blocks),
                  "\n" + SummarySection(data) + ReportNote, blocks[k]);
  }

  /** With tests, the report is the text before the blocks, the blocks and
      the text after them. */
  lemma ReportTextSplit(data: ReportData, nameKey: Property, rangeKey: Property)
    requires data.testResults.Some? && |data.testResults.value| > 0
    ensures ReportTextWith(data, nameKey, rangeKey) ==
      (ReportHeading + PatientSection(data) + TestsHeading) +
      Concat(BlocksWith(data.testResults.value, nameKey, rangeKey)) +
      ("\n" + SummarySection(data) + ReportNote)
  {
    Regroup(ReportHeading + PatientSection(data), TestsHeading, Concat(BlocksWith(data.testResults.value, nameKey, rangeKey)),
            "\n", SummarySection(data), ReportNote);
  }

  lemma Regroup(h: string, th: string, b: string, n: string, ss: string, rn: string)
    ensures h + (th + b + n) + ss + rn == (h + th + b) + (n + ss + rn)
  {
  }

  /** As written, the report holds every analysed test's block under the
      heading "**undefined**", followed by the test's value line. */
  lemma AsWrittenReportSaysUndefined(data: ReportData, k: nat, t: TestResult)
    requires data.testResults.Some? && k < |data.testResults.value| && data.testResults.value[k] == ResultObject(t)
    ensures Contains(ReportText(data), TestBlockAsWritten(ResultObject(t)))
    ensures Contains(ReportText(data), NameLine("undefined") + Line("Value", t.value))
  {
    ReportContainsBlock(data, k, TestNameProp, ReferenceRangeProp);
    AsWrittenLosesNameAndRange(t);
    var r := ReportText(data);
    var head := NameLine("undefined") + Line("Value", t.value);
    var unit := OptLine("Unit", ResultObject(t), UnitProp);
    ContainsLeft(r, head + unit, Line("Status", StatusName(t.status)));
    ContainsLeft(r, head, unit);
  }

  /** The intended report shows each analysed test's name, and its
      reference line whenever the range is non-empty. */
  lemma ReportIntendedShowsTest(data: ReportData, k: nat, t: TestResult)
    requires data.testResults.Some? && k < |data.testResults.value| && data.testResults.value[k] == ResultObject(t)
    ensures Contains(ReportTextIntended(data), NameLine(t.test))
    ensures t.range != [] ==> Contains(ReportTextIntended(data), Line("Reference", t.range))
  {
    ReportContainsBlock(data, k, TestProp, RangeProp);
    BlockShowsNameAndRange(t);
    var r := ReportTextIntended(data);
    var name := NameLine(t.test);
    var value := Line("Value", t.value);
    var unit := OptLine("Unit", ResultObject(t), UnitProp);
    var reference := if t.range != [] then Line("Reference", t.range) else [];
    ContainsLeft(r, name + value + unit + reference, Line("Status", StatusName(t.status)));
    ContainsRight(r, name + value + unit, reference);
    ContainsLeft(r, name + value + unit, reference);
    ContainsLeft(r, name + value, unit);
    ContainsLeft(r, name, value);
  }

  // ---------------------------------------------------------------------
  // The component's state
  // ---------------------------------------------------------------------

  datatype Upload = Upload(name: string, mimeType: string)
  /** The analysis request: the service's JSON, or a failed request. */
  datatype UploadOutcome = Analyzed(data: ReportData) | RequestFailed

  const PdfError := "Please upload a PDF file"
  const AnalysisError := "\U{274C} Sorry, I encountered an error analyzing your medical report. Please make sure:\n\n\U{2022} The file is a valid PDF\n\U{2022} The PDF contains readable text or clear images\n\U{2022} The backend server is running on port 5001\n\nPlease try again or consult a healthcare professional."

  function UploadedText(name: string): string { "Uploaded medical report: " + name }

  /** The bot's message for an upload's outcome. */
  function UploadReply(name: string, botId: string, outcome: UploadOutcome): Message {
    if outcome.Analyzed? && outcome.data.success then
      Message(botId, ReportText(outcome.data), Bot, Some(FileInfo(name, outcome.data.summary)))
    else Message(botId, AnalysisError, Bot, None)
  }

  class ChatState {
    var messages: seq<Message>
    var inputText: string
    var isTyping: bool
    var isAnalyzing: bool
    var uploadError: string
    var uploadedFile: Option<Upload>

    constructor()
      ensures messages == [] && inputText == [] && !isTyping && !isAnalyzing
      ensures uploadError == [] && uploadedFile == None
    {
      messages := [];
      inputText := [];
      isTyping := false;
      isAnalyzing := false;
      uploadError := [];
      uploadedFile := None;
    }

    /** The welcome timer: the list becomes the single welcome message. */
    method ShowWelcome()
      modifies this
      ensures messages == [Message("1", Welcome, Bot, None)]
      ensures inputText == old(inputText) && isTyping == old(isTyping) && isAnalyzing == old(isAnalyzing)
      ensures uploadError == old(uploadError) && uploadedFile == old(uploadedFile)
    {
      messages := [Message("1", Welcome, Bot, None)];
    }

    /** handleSendMessage: blank input is ignored; otherwise the user's
        message and the bot's reply are appended and the input cleared. */
    method SendMessage(userId: string, botId: string, outcome: TextOutcome)
      modifies this
      ensures Trim(old(inputText)) == [] ==>
        messages == old(messages) && inputText == old(inputText) && isTyping == old(isTyping)
      ensures Trim(old(inputText)) != [] ==>
        messages == old(messages) + [Message(userId, old(inputText), User, None),
                                     Message(botId, BotReply(old(inputText), outcome), Bot, None)]
        && inputText == [] && !isTyping
      ensures isAnalyzing == old(isAnalyzing) && uploadError == old(uploadError) && uploadedFile == old(uploadedFile)
    {
      if Trim(inputText) == [] {
        return;
      }
      var userMessage := Message(userId, inputText, User, None);
      messages := messages + [userMessage];
      var userInput := inputText;
      inputText := [];
      isTyping := true;
      var reply := BotReply(userInput, outcome);
      messages := messages + [Message(botId, reply, Bot, None)];
      isTyping := false;
    }

    /** handleFileUpload: no file does nothing; a file that is not a PDF
        only sets the error; a PDF appends the upload message and the
        reply, and clears the file and the analysing flag. */
    method HandleFileUpload(file: Option<Upload>, userId: string, botId: string, outcome: UploadOutcome)
      modifies this
      ensures file.None? ==>
        messages == old(messages) && uploadError == old(uploadError) &&
        isAnalyzing == old(isAnalyzing) && uploadedFile == old(uploadedFile)
      ensures file.Some? && file.value.mimeType != "application/pdf" ==>
        messages == old(messages) && uploadError == PdfError &&
        isAnalyzing == old(isAnalyzing) && uploadedFile == old(uploadedFile)
      ensures file.Some? && file.value.mimeType == "application/pdf" ==>
        messages == old(messages) + [Message(userId, UploadedText(file.value.name), User, Some(FileInfo(file.value.name, None))),
                                     UploadReply(file.value.name, botId, outcome)]
        && uploadError == [] && !isAnalyzing && uploadedFile == None
      ensures inputText == old(inputText) && isTyping == old(isTyping)
    {
      if file.None? {
        return;
      }
      var f := file.value;
      if f.mimeType != "application/pdf" {
        uploadError := PdfError;
        return;
      }
      isAnalyzing := true;
      uploadError := [];
      messages := messages + [Message(userId, UploadedText(f.name), User, Some(FileInfo(f.name, None)))];
      if outcome.Analyzed? && outcome.data.success {
        var text := ResultText(outcome.data);
        messages := messages + [Message(botId, text, Bot, Some(FileInfo(f.name, outcome.data.summary)))];
      } else {
        messages := messages + [Message(botId, AnalysisError, Bot, None)];
      }
      isAnalyzing := false;
      uploadedFile := None;
    }

    /** handleNewChat: only the welcome message is left, and the input is
        empty. */
    method NewChat(id: string)
      modifies this
      ensures messages == [Message(id, Welcome, Bot, None)] && inputText == []
      ensures isTyping == old(isTyping) && isAnalyzing == old(isAnalyzing)
      ensures uploadError == old(uploadError) && uploadedFile == old(uploadedFile)
    {
      messages := [Message(id, Welcome, Bot, None)];
      inputText := [];
    }
  }
}
