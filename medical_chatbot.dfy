/** The SwasthAI chat widget (frontend/components/medical-chatbot.tsx): the
    send guard and default content of `handleSendMessage`, the offline reply
    `getAIResponse`, the image upload that sends an empty image message, and
    the markup and emoji stripping `speakText` applies before handing a reply
    to the speech synthesiser. The synthesiser, timers and the network are
    not modelled: the service's answer and the random pick are inputs, and
    the text that would be spoken is returned. */
module MedicalChatbot {
  import opened TextUtil
  import opened ChatService

  datatype Sender = User | Bot
  datatype MediaType = Text | Image | Voice
  datatype ApiStatus = Online | Offline | Checking

  /** A chat message; the timestamp is left out. */
  datatype Message = Message(id: string, sender: Sender, content: string, mediaType: MediaType, mediaUrl: Option<string>)

  // The welcome text, sentence by sentence.
  const WelcomeIntro := "Hello! I'm SwasthAI, your AI-powered health assistant powered by Ollama and n8n workflows. "
  const WelcomeSpecialty := "I specialize in traditional Indian home remedies and symptom analysis.\n\nI can help you with:\n"
  const WelcomeList1 := "\U{2022} Symptom analysis and explanations\n\U{2022} Traditional Indian (desi) home remedy suggestions\n"
  const WelcomeList2 := "\U{2022} Understanding possible causes of symptoms\n\U{2022} Preventive measures and health tips\n\n"
  const WelcomeWarning := "\U{26A0}\U{FE0F} **Important**: I provide general health information and home remedies only. "
  const WelcomeAdvice := "For serious concerns, emergencies, or specific medical advice, "
  const WelcomeConsult := "please consult a qualified healthcare professional immediately.\n\nHow can I assist you today?"
  const Welcome := WelcomeIntro + WelcomeSpecialty + WelcomeList1 + WelcomeList2 + WelcomeWarning + WelcomeAdvice + WelcomeConsult

  const WelcomeMessage := Message("1", Bot, Welcome, Text, None)

  // ---------------------------------------------------------------------
  // getAIResponse
  // ---------------------------------------------------------------------

  const ImageReply := "I can see the image you've shared. Based on what I observe, " +
    "I'd recommend consulting with a healthcare professional for a proper diagnosis. " +
    "In the meantime, here are some general care tips..."
  const VoiceReply := "I've processed your voice message. Thank you for sharing your concerns. " +
    "Based on what you've described, here's what I recommend..."

  /** The number of canned replies to text. */
  const ResponseCount := 3

  /** The canned replies to text, one of which is picked at random. */
  function TextResponse(pick: nat): string
    requires pick < ResponseCount
  {
    if pick == 0 then
      "Thank you for sharing your symptoms. Based on what you've described, " +
      "I recommend monitoring your condition and consulting with a healthcare provider if symptoms persist."
    else if pick == 1 then
      "I understand your concerns. Here are some general recommendations that might help, " +
      "but please consult a medical professional for personalized advice."
    else
      "Your health question is important. While I can provide general guidance, " +
      "it's best to seek professional medical advice for proper diagnosis and treatment."
  }

  /** The local stand-in reply; `pick` is `Math.floor(Math.random() * 3)`.
      The user's input is not consulted. */
  function AIResponse(userInput: string, mediaType: MediaType, pick: nat): (r: string)
    requires pick < ResponseCount
    ensures mediaType == Image ==> r == ImageReply
    ensures mediaType == Voice ==> r == VoiceReply
    ensures mediaType == Text ==> r == TextResponse(pick)
  {
    match mediaType
    case Image => ImageReply
    case Voice => VoiceReply
    case Text => TextResponse(pick)
  }

  // ---------------------------------------------------------------------
  // The replies of handleSendMessage
  // ---------------------------------------------------------------------

  /** The content of the user's message: `content ||` a caption for the media. */
  function DefaultContent(content: string, mediaType: MediaType): (r: string)
    ensures r != []
    ensures content != [] ==> r == content
    ensures content == [] && mediaType == Image ==> r == "Image uploaded"
    ensures content == [] && mediaType != Image ==> r == "Voice message"
  {
    Or(content, if mediaType == Image then "Image uploaded" else "Voice message")
  }

  /** The guard of handleSendMessage: blank text is not sent; media always is. */
  predicate Ignored(content: string, mediaType: MediaType) {
    Trim(content) == [] && mediaType == Text
  }

  const Difficulties := "I'm experiencing technical difficulties with the AI service. " +
    "Please ensure the backend and n8n workflow are running. " +
    "For immediate concerns, please consult a healthcare professional."
  const UnableToConnect := "I'm unable to connect to the AI service right now. "
  const ConnectionNote := "\n\n\U{26A0}\U{FE0F} Note: Please ensure:\n\U{2022} Flask backend is running on port 5003\n" +
    "\U{2022} n8n workflow is active\n\U{2022} Ollama is running\n\n" +
    "For immediate medical concerns, please consult a healthcare professional."

  /** The reply when the service cannot be reached. */
  function FallbackText(content: string, mediaType: MediaType, pick: nat): string
    requires pick < ResponseCount
  {
    UnableToConnect + AIResponse(content, mediaType, pick) + ConnectionNote
  }

  /** The bot's reply for each outcome of the request. */
  function BotText(content: string, mediaType: MediaType, outcome: TextOutcome, pick: nat): (r: string)
    requires pick < ResponseCount
    ensures r != []
  {
    match outcome
    case Answered(p, f) => AnsweredText(p, f)
    case Refused(e) => Or(e, Difficulties)
    case NoConnection => FallbackText(content, mediaType, pick)
  }

  /** An accepted answer is the prediction, else the final response, else the
      apology; a refusal shows its error or the difficulties notice; without a
      connection the local reply for the media type is embedded in the notice. */
  lemma BotTextProps(content: string, mediaType: MediaType, outcome: TextOutcome, pick: nat)
    requires pick < ResponseCount
    ensures outcome.Answered? && outcome.prediction != [] ==> BotText(content, mediaType, outcome, pick) == outcome.prediction
    ensures outcome.Answered? && outcome.prediction == [] && outcome.finalResponse != [] ==>
      BotText(content, mediaType, outcome, pick) == outcome.finalResponse
    ensures outcome == Answered([], []) ==> BotText(content, mediaType, outcome, pick) == Apology
    ensures outcome.Refused? && outcome.error != [] ==> BotText(content, mediaType, outcome, pick) == outcome.error
    ensures outcome == Refused([]) ==> BotText(content, mediaType, outcome, pick) == Difficulties
    ensures outcome.NoConnection? ==>
      PrefixAt(BotText(content, mediaType, outcome, pick), 0, UnableToConnect) &&
      Contains(BotText(content, mediaType, outcome, pick), AIResponse(content, mediaType, pick))
  {
    if outcome.NoConnection? {
      var r := AIResponse(content, mediaType, pick);
      ContainsConcat(UnableToConnect, r, ConnectionNote);
      var t := UnableToConnect + r + ConnectionNote;
      PrefixAtSlice(t, 0, UnableToConnect);
    }
  }

  /** Offline, an image message is answered with the image reply whatever
      was typed and whichever canned reply would have been picked. */
  lemma OfflineImageReply(content: string, pick: nat, pick': nat)
    requires pick < ResponseCount && pick' < ResponseCount
    ensures BotText(content, Image, NoConnection, pick) == BotText([], Image, NoConnection, pick')
    ensures Contains(BotText(content, Image, NoConnection, pick), ImageReply)
  {
    BotTextProps(content, Image, NoConnection, pick);
  }

  // ---------------------------------------------------------------------
  // speakText's text cleaning
  // ---------------------------------------------------------------------

  // `.replace(/\*\*/g, '')`: pairs of asterisks, left to right.
  function RemoveDoubleStars(s: string): string {
    if s == [] then []
    else if |s| >= 2 && s[0] == '*' && s[1] == '*' then RemoveDoubleStars(s[2..])
    else [s[0]] + RemoveDoubleStars(s[1..])
  }

  // `.replace(/\*/g, '')`.
  function RemoveStars(s: string): string {
    if s == [] then []
    else if s[0] == '*' then RemoveStars(s[1..])
    else [s[0]] + RemoveStars(s[1..])
  }

  /** Length of the run of '#' that s starts with. */
  function HashRun(s: string): (n: nat)
    ensures n <= |s|
  {
    if s != [] && s[0] == '#' then 1 + HashRun(s[1..]) else 0
  }

  /** `.replace(/#{1,6}\s/g, '')`: at each position, a run of one to six '#'
      followed by whitespace is dropped together with that whitespace. A
      longer run cannot match where it starts, so its first characters are
      kept until six remain. */
  function RemoveHeadings(s: string): string {
    if s == [] then []
    else
      var n := HashRun(s);
      if 1 <= n <= 6 && n < |s| && IsSpace(s[n]) then RemoveHeadings(s[n + 1..])
      else [s[0]] + RemoveHeadings(s[1..])
  }

  /** The single-character emoji of the alternation. */
  predicate ListedEmoji(c: char) {
    c == '\U{2705}' || c == '\U{274C}' || c == '\U{1F389}'
  }

  /** `.replace(/⚠️|✅|❌|🎉/g, '')`; the warning sign is the two characters
      U+26A0 U+FE0F. */
  function RemoveEmoji(s: string): string {
    if s == [] then []
    else if |s| >= 2 && s[0] == '\U{26A0}' && s[1] == '\U{FE0F}' then RemoveEmoji(s[2..])
    else if ListedEmoji(s[0]) then RemoveEmoji(s[1..])
    else [s[0]] + RemoveEmoji(s[1..])
  }

  /** The replacements of speakText in their order, before the trim. */
  function StripMarkup(text: string): string {
    RemoveEmoji(RemoveHeadings(RemoveStars(RemoveDoubleStars(text))))
  }

  function CleanSpeech(text: string): string {
    Trim(StripMarkup(text))
  }

  /** What speakText hands to the synthesiser: nothing when the cleaned text is empty. */
  function SpeechOf(text: string): Option<string> {
    var c := CleanSpeech(text);
    if c == [] then None else Some(c)
  }

  /** Removing the pairs first is the same as removing every asterisk. */
  lemma {:induction false} RemoveStarsAbsorbs(s: string)
    ensures RemoveStars(RemoveDoubleStars(s)) == RemoveStars(s)
  {
    if s == [] {
    } else if |s| >= 2 && s[0] == '*' && s[1] == '*' {
      RemoveStarsAbsorbs(s[2..]);
      assert s[1..][1..] == s[2..];
    } else {
      var rest := RemoveDoubleStars(s[1..]);
      assert ([s[0]] + rest)[1..] == rest;
      RemoveStarsAbsorbs(s[1..]);
    }
  }

  /** The asterisk removal deletes every '*' and introduces nothing. */
  lemma {:induction false} RemoveStarsKeeps(s: string, c: char)
    requires NoCharIn(s, c) || c == '*'
    ensures NoCharIn(RemoveStars(s), c)
  {
    if s != [] {
      RemoveStarsKeeps(s[1..], c);
    }
  }

  lemma {:induction false} RemoveDoubleStarsKeeps(s: string, c: char)
    requires NoCharIn(s, c)
    ensures NoCharIn(RemoveDoubleStars(s), c)
  {
    if s == [] {
    } else if |s| >= 2 && s[0] == '*' && s[1] == '*' {
      RemoveDoubleStarsKeeps(s[2..], c);
    } else {
      RemoveDoubleStarsKeeps(s[1..], c);
    }
  }

  lemma {:induction false} RemoveHeadingsKeeps(s: string, c: char)
    requires NoCharIn(s, c)
    ensures NoCharIn(RemoveHeadings(s), c)
  {
    if s != [] {
      var n := HashRun(s);
      if 1 <= n <= 6 && n < |s| && IsSpace(s[n]) {
        RemoveHeadingsKeeps(s[n + 1..], c);
      } else {
        RemoveHeadingsKeeps(s[1..], c);
      }
    }
  }

  /** The emoji removal deletes every listed single-character emoji and
      introduces nothing. */
  lemma {:induction false} RemoveEmojiKeeps(s: string, c: char)
    requires NoCharIn(s, c) || ListedEmoji(c)
    ensures NoCharIn(RemoveEmoji(s), c)
  {
    if s == [] {
    } else if |s| >= 2 && s[0] == '\U{26A0}' && s[1] == '\U{FE0F}' {
      RemoveEmojiKeeps(s[2..], c);
    } else {
      RemoveEmojiKeeps(s[1..], c);
    }
  }

  lemma TrimKeeps(s: string, c: char)
    requires NoCharIn(s, c)
    ensures NoCharIn(Trim(s), c)
  {
    TrimSlice(s);
  }

  /** Every stage keeps a character out once it is absent. */
  lemma StripMarkupKeeps(text: string, c: char)
    requires NoCharIn(text, c)
    ensures NoCharIn(CleanSpeech(text), c)
  {
    var a := RemoveDoubleStars(text);
    RemoveDoubleStarsKeeps(text, c);
    var b := RemoveStars(a);
    RemoveStarsKeeps(a, c);
    var d := RemoveHeadings(b);
    RemoveHeadingsKeeps(b, c);
    RemoveEmojiKeeps(d, c);
    TrimKeeps(StripMarkup(text), c);
  }

  /** The spoken text has no asterisk, none of the single-character emoji
      of the list, and no whitespace at either end. */
  lemma CleanSpeechProps(text: string)
    ensures NoCharIn(CleanSpeech(text), '*')
    ensures NoCharIn(CleanSpeech(text), '\U{2705}')
    ensures NoCharIn(CleanSpeech(text), '\U{274C}')
    ensures NoCharIn(CleanSpeech(text), '\U{1F389}')
    ensures CleanSpeech(text) == [] ||
      (!IsSpace(CleanSpeech(text)[0]) && !IsSpace(CleanSpeech(text)[|CleanSpeech(text)| - 1]))
  {
    var b := RemoveStars(RemoveDoubleStars(text));
    RemoveStarsKeeps(RemoveDoubleStars(text), '*');
    var d := RemoveHeadings(b);
    RemoveHeadingsKeeps(b, '*');
    var e := RemoveEmoji(d);
    RemoveEmojiKeeps(d, '*');
    RemoveEmojiKeeps(d, '\U{2705}');
    RemoveEmojiKeeps(d, '\U{274C}');
    RemoveEmojiKeeps(d, '\U{1F389}');
    TrimKeeps(e, '*');
    TrimKeeps(e, '\U{2705}');
    TrimKeeps(e, '\U{274C}');
    TrimKeeps(e, '\U{1F389}');
    TrimSlice(e);
  }

  /** Nothing is spoken exactly when only whitespace is left once the markup
      and emoji are removed; otherwise the cleaned text is spoken. */
  lemma SpeechOfProps(text: string)
    ensures SpeechOf(text).None? <==> AllSpace(StripMarkup(text))
    ensures SpeechOf(text).Some? ==> SpeechOf(text).value != [] && SpeechOf(text).value == CleanSpeech(text)
  {
    TrimEmptyIff(StripMarkup(text));
  }

  /** A heading marker of one to six '#' and a space is dropped. */
  lemma {:induction false} HeadingMarkerDropped(hashes: string, rest: string)
    requires 1 <= |hashes| <= 6 && forall k :: 0 <= k < |hashes| ==> hashes[k] == '#'
    ensures RemoveHeadings(hashes + " " + rest) == RemoveHeadings(rest)
  {
    var s := hashes + " " + rest;
    HashRunPrefix(hashes, " " + rest);
    assert s == hashes + (" " + rest);
    assert s[|hashes|] == ' ';
    assert s[|hashes| + 1..] == rest;
  }

  lemma {:induction false} HashRunPrefix(hashes: string, t: string)
    requires forall k :: 0 <= k < |hashes| ==> hashes[k] == '#'
    requires t != [] && t[0] != '#'
    ensures HashRun(hashes + t) == |hashes|
  {
    if hashes != [] {
      assert (hashes + t)[1..] == hashes[1..] + t;
      HashRunPrefix(hashes[1..], t);
    } else {
      assert hashes + t == t;
    }
  }

  /** Deleting a check mark can bring a lone warning sign next to the
      variation selector that followed the mark: the result then spells the
      two-character warning emoji the list was meant to remove. */
  const JoinedWarning := "\U{26A0}\U{2705}\U{FE0F}"

  lemma WarningCanSurvive()
    ensures CleanSpeech(JoinedWarning) == "\U{26A0}\U{FE0F}"
  {
    var s := JoinedWarning;
    assert RemoveDoubleStars(s[2..]) == s[2..];
    assert RemoveDoubleStars(s[1..]) == s[1..];
    assert RemoveDoubleStars(s) == s;
    assert RemoveStars(s[2..]) == s[2..];
    assert RemoveStars(s[1..]) == s[1..];
    assert RemoveStars(s) == s;
    assert RemoveHeadings(s[2..]) == s[2..];
    assert RemoveHeadings(s[1..]) == s[1..];
    assert RemoveHeadings(s) == s;
    assert RemoveEmoji(s[2..]) == s[2..];
    assert RemoveEmoji(s[1..]) == s[2..];
    assert RemoveEmoji(s) == "\U{26A0}\U{FE0F}";
    TrimNoEdges("\U{26A0}\U{FE0F}");
  }

  // ---------------------------------------------------------------------
  // The component's state
  // ---------------------------------------------------------------------

  /** An image chosen in the file picker, with the data URL FileReader yields. */
  datatype ImageFile = ImageFile(mimeType: string, dataUrl: string)

  class ChatbotState {
    var messages: seq<Message>
    var inputText: string
    var isLoading: bool
    var apiStatus: ApiStatus
    var lastBotMessage: string

    constructor()
      ensures messages == [WelcomeMessage] && inputText == [] && !isLoading
      ensures apiStatus == Checking && lastBotMessage == []
    {
      messages := [WelcomeMessage];
      inputText := [];
      isLoading := false;
      apiStatus := Checking;
      lastBotMessage := [];
    }

    /** checkApiStatus: `reachable` is whether the health request returned an ok response. */
    method CheckApiStatus(reachable: bool)
      modifies this
      ensures apiStatus == (if reachable then Online else Offline)
      ensures messages == old(messages) && inputText == old(inputText)
      ensures isLoading == old(isLoading) && lastBotMessage == old(lastBotMessage)
    {
      if reachable {
        apiStatus := Online;
      } else {
        apiStatus := Offline;
      }
    }

    /** handleSendMessage: blank text does nothing; otherwise the user's
        message and the bot's reply are appended, the input is cleared, the
        status follows the outcome, and an accepted answer is remembered and
        returned as the text to speak. */
    method SendMessage(content: string, mediaType: MediaType, mediaUrl: Option<string>,
                       userId: string, botId: string, outcome: TextOutcome, pick: nat)
      returns (speech: Option<string>)
      requires pick < ResponseCount
      modifies this
      ensures Ignored(content, mediaType) ==>
        messages == old(messages) && inputText == old(inputText) && isLoading == old(isLoading) &&
        apiStatus == old(apiStatus) && lastBotMessage == old(lastBotMessage) && speech == None
      ensures !Ignored(content, mediaType) ==>
        messages == old(messages) + [Message(userId, User, DefaultContent(content, mediaType), mediaType, mediaUrl),
                                     Message(botId, Bot, BotText(content, mediaType, outcome, pick), Text, None)]
        && inputText == [] && !isLoading
        && apiStatus == (if outcome.Answered? then Online else Offline)
        && lastBotMessage == (if outcome.Answered? then BotText(content, mediaType, outcome, pick) else old(lastBotMessage))
        && speech == (if outcome.Answered? then SpeechOf(BotText(content, mediaType, outcome, pick)) else None)
    {
      speech := None;
      if Trim(content) == [] && mediaType == Text {
        return;
      }
      messages := messages + [Message(userId, User, DefaultContent(content, mediaType), mediaType, mediaUrl)];
      inputText := [];
      isLoading := true;
      var reply := BotText(content, mediaType, outcome, pick);
      if outcome.Answered? {
        apiStatus := Online;
        lastBotMessage := reply;
        speech := SpeechOf(reply);
      } else {
        apiStatus := Offline;
      }
      messages := messages + [Message(botId, Bot, reply, Text, None)];
      isLoading := false;
    }

    /** handleImageUpload: an image file is sent as an empty image message
        with its data URL; any other file, or none, does nothing. */
    method HandleImageUpload(file: Option<ImageFile>, userId: string, botId: string, outcome: TextOutcome, pick: nat)
      returns (speech: Option<string>)
      requires pick < ResponseCount
      modifies this
      ensures (file.None? || !PrefixAt(file.value.mimeType, 0, "image/")) ==>
        messages == old(messages) && inputText == old(inputText) && isLoading == old(isLoading) &&
        apiStatus == old(apiStatus) && lastBotMessage == old(lastBotMessage) && speech == None
      ensures file.Some? && PrefixAt(file.value.mimeType, 0, "image/") ==>
        messages == old(messages) + [Message(userId, User, "Image uploaded", Image, Some(file.value.dataUrl)),
                                     Message(botId, Bot, BotText([], Image, outcome, pick), Text, None)]
        && inputText == [] && !isLoading
        && apiStatus == (if outcome.Answered? then Online else Offline)
        && lastBotMessage == (if outcome.Answered? then BotText([], Image, outcome, pick) else old(lastBotMessage))
        && speech == (if outcome.Answered? then SpeechOf(BotText([], Image, outcome, pick)) else None)
    {
      speech := None;
      if file.None? || !PrefixAt(file.value.mimeType, 0, "image/") {
        return;
      }
      speech := SendMessage([], Image, Some(file.value.dataUrl), userId, botId, outcome, pick);
    }
  }
}
