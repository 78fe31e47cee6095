# Swasth-AI: a verified model of the report, smartwatch and chat logic

Swasth-AI is a health assistant. This project models its deterministic core
in Dafny and proves properties about that model:

- **Report pipeline** (`backend-node`):
  - the OCR text clean-up and the joining of pages;
  - the medical-report interpreter: the fixed regular expressions, test-result extraction, patient details, test classification and the text summary.
- **Smartwatch service** (`backend-node/routes/smartwatch.js`):
  - the mental-health score;
  - the ten-reading history buffer;
  - the `/data`, `/score`, `/recommendations` and `/latest` handlers.
- **Prediction API** (`backend/app.py`): request validation on any JSON body (Python's `in` on objects, lists and strings), assembly of the feature vectors, and the mapping of a 0/1 prediction to its label.
- **Chat and dashboard UI** (`frontend`):
  - MediBot: the keyword reply chooser, the send and upload handlers, and the report formatter;
  - the medical chatbot: the send guard, default content, replies, and the speech clean-up;
  - the mental-health page: the score colours, the latest reading, and the stress bars.

There is one module per source concern:

| file | module | models |
|---|---|---|
| text_util.dfy | TextUtil | character classes, `toLowerCase`/`toUpperCase`, `includes`, `trim`, decimal digits |
| ocr.dfy | Ocr | `cleanText` and the page join of `extractTextFromMultipleImages` |
| scan.dfy | Scan | `\d+\.?\d*` numbers, `parseFloat`/`parseInt`, the range pattern, shared scanning helpers |
| patterns.dfy | Patterns | each fixed regular expression of `analysis.js` as a scanner; leftmost search (`match`/`exec`) |
| status.dfy | TestStatus | `determineTestStatus` |
| test_results.dfy | TestResults | `extractTestResults` |
| patient.dfy | Patient | `extractPatientInfo` |
| summary.dfy | Summary | `generateSummary`, `analyzeMedicalReport` |
| smartwatch.dfy | Smartwatch | `calculateMentalHealthScore`, the `readings` buffer, the four GET handlers |
| ml_api.dfy | MlApi | `predict_diabetes`, `predict_heart`, `predict_parkinsons` |
| chat_service.dfy | ChatService | the `/analyze/text` outcome both chat components read |
| medibot.dfy | MediBot | `MediBot.tsx` |
| medical_chatbot.dfy | MedicalChatbot | `medical-chatbot.tsx` |
| mental_health.dfy | MentalHealth | `app/mental-health/page.tsx` |

How the source's forms are modelled:

- **Functions over values.**
  - Where the source computes a value, the model is a function: the status classifier, the regex scanners, `cleanText`, the prediction handlers, the reply choosers.
  - Where the source builds a result step by step, the model is a method with loops, proved equal to a specification function.
    - `extractPatientInfo`: loops over pattern lists with `break`.
    - `extractTestResults`: `while (exec(...))` scans.
    - `generateSummary` and MediBot's `resultText`: `+=` accumulation.
    - The recommendation pushes and the score's step-by-step updates.
  - The lemmas are stated about those specification functions.
- **Classes for mutable state.**
  - The smartwatch buffer (`readings`, `readingId`) is the class `Smartwatch.ReadingStore`.
  - The React state of the two chat components is `MediBot.ChatState` and `MedicalChatbot.ChatbotState`.
  - Each handler is a method with a `modifies` clause and states the whole new state.
- **Parameters for what is outside.**
  - Randomness, clocks and the network become parameters. These are the smartwatch samples, message ids, the outcome of a `fetch`, and the index of the random reply.
  - The machine-learning `predict` and Python's `float` text parsing become function parameters.
- **Regular expressions.**
  - Each fixed pattern is hand-written as a scanner at one start position, following the JavaScript engine's backtracking order.
  - `String.prototype.match` and `RegExp.prototype.exec` are the leftmost search over those scanners (`Patterns.Search`).
  - No general regex engine is modelled.
- **Numbers.** They are exact: `parseFloat` sees only `\d+\.?\d*` texts and is modelled as the exact decimal (`real`), and JavaScript numbers in comparisons are reals.

## Model

| member | source | states |
|---|---|---|
| TextUtil.ToLowerIdempotent | frontend/components/MediBot.tsx:438 | lower-casing an already lower-cased text changes nothing |
| TextUtil.ContainsIff | backend-node/utils/analysis.js:270 | `includes` holds exactly when the word occurs at some index |
| TextUtil.TrimSlice | backend-node/utils/ocr.js:64-66 | `trim` cuts only whitespace, from both ends, and what is left is empty or starts and ends with a non-space |
| TextUtil.TrimEmptyIff | frontend/components/MediBot.tsx:223 | the trimmed text is empty exactly when the text is all whitespace |
| TextUtil.DigitsValueRoundTrip | backend-node/utils/analysis.js:26-28 | the decimal digits printed for n read back as n |
| Ocr.ReplaceCrRemoves | backend-node/utils/ocr.js:57-58 | after the two line-break replacements no carriage return is left |
| Ocr.ReplaceCrLfKeeps | backend-node/utils/ocr.js:57 | replacing CRLF introduces no tab, double space or other unwanted character |
| Ocr.CollapseBlankLinesKeeps | backend-node/utils/ocr.js:60 | collapsing runs of three or more newlines introduces no unwanted character |
| Ocr.CollapseSpacesProps | backend-node/utils/ocr.js:62 | after collapsing spaces and tabs there is no tab and no two adjacent spaces, and no carriage return comes back |
| Ocr.TrimLinesEdges | backend-node/utils/ocr.js:64 | after the per-line trim no line starts or ends with whitespace |
| Ocr.TrimLinesNoDoubleSpace | backend-node/utils/ocr.js:64 | the per-line trim creates no two adjacent spaces |
| Ocr.TrimLinesKeeps | backend-node/utils/ocr.js:64 | the per-line trim introduces no unwanted character |
| Ocr.CleanTextNormalized | backend-node/utils/ocr.js:52-67 | an empty input gives "". Otherwise the output has no CR, no tab, no double space, no line with whitespace at an edge, and is trimmed as a whole |
| Ocr.CleanTextNotIdempotent | backend-node/utils/ocr.js:60-64 | "a\n \n \nb" cleans to "a\n\n\nb", and cleaning that again gives "a\n\nb", a different text |
| Ocr.CleanTextLeavesThreeBreaks | backend-node/utils/ocr.js:60-64 | a cleaned text can still contain three newlines in a row |
| Ocr.CleanPages | backend-node/utils/ocr.js:77-81 | each page is cleaned, in input order |
| Ocr.JoinPagesShape | backend-node/utils/ocr.js:84 | one page joins to its cleaned text; one more page adds the page-break separator and that page's cleaned text at the end |
| Ocr.JoinPagesNormalized | backend-node/utils/ocr.js:83-84 | the joined text has no CR, tab, double space or untrimmed line. It need not be trimmed as a whole: a first page that cleans to nothing leaves the text starting with the separator |
| Scan.NumberEnd | backend-node/utils/analysis.js:350 | the greedy `\d+\.?\d*` starting at a digit ends after that digit and inside the text |
| Scan.NumberEndText | backend-node/utils/analysis.js:350 | what `\d+\.?\d*` takes is a number text: digits, optionally a dot and more digits |
| Scan.NumberEndAt | backend-node/utils/analysis.js:350 | a number text followed by neither a digit nor a dot is exactly what the greedy scan takes |
| Scan.ParseFloat | backend-node/utils/analysis.js:352-353 | `parseFloat` gives a number exactly when the text starts with a digit |
| Scan.ParseFloatText | backend-node/utils/analysis.js:276 | on a number text `parseFloat` gives its exact decimal value |
| Scan.ParseInt | backend-node/utils/analysis.js:26 | `parseInt` gives a number exactly when the text starts with a digit |
| Scan.ParseIntNatToString | backend-node/utils/analysis.js:26-28 | `parseInt` of the digits of n followed by a non-digit is n |
| Scan.IntText | backend-node/utils/analysis.js:352 | the digits of n form a number text worth n |
| Scan.DecimalText | backend-node/utils/analysis.js:352 | "w.f" with one decimal digit is a number text worth w + f/10 |
| Scan.RangeAt | backend-node/utils/analysis.js:350 | a range match at p lies inside the text, starts at p and has the two captures |
| Scan.RangeAtNumbers | backend-node/utils/analysis.js:350-353 | both captures of a range match are number texts, so both `parseFloat` calls succeed |
| Scan.RangeAtParts | backend-node/utils/analysis.js:350 | number, optional spaces, dash, optional spaces and number, laid out at given positions, are matched with exactly those two numbers as captures |
| Scan.RangePartsOfMatch | backend-node/utils/analysis.js:350 | every range match has that layout |
| Scan.RangeAtOwn | backend-node/utils/analysis.js:350 | the matched range text, taken on its own, matches again at its start with the same captures |
| Scan.FirstPrefixCI | backend-node/utils/analysis.js:293 | case-insensitive alternation: the first alternative present at the position, or none of them is present |
| Scan.FirstPrefix | backend-node/utils/analysis.js:256 | case-sensitive alternation: the first alternative present at the position, or none of them is present |
| Scan.LabelSep | backend-node/utils/analysis.js:22 | `[:\s]*` ends inside the text at or after its start |
| Scan.LazyUntil | backend-node/utils/analysis.js:43-45 | a lazy capture ends at the first position where a terminator follows; every character before it is in the class and no terminator starts there |
| Scan.WordSlashWordEnd | backend-node/utils/analysis.js:256 | `\w+\/\w+` ends after its start |
| Scan.ShapeEnd | backend-node/utils/analysis.js:111-116 | a date shape ends inside the text and takes at least one character when its first atom needs one |
| Patterns.GroupCount | backend-node/utils/analysis.js:22-131 | each pattern has one to four captures |
| Patterns.WordsEnd | backend-node/utils/analysis.js:111 | `Date\s*of\s*Report` ends inside the text, after its start |
| Patterns.AgeSexAt | backend-node/utils/analysis.js:22 | an Age/Sex match starts at p, lies inside the text and has two captures |
| Patterns.NameCapture | backend-node/utils/analysis.js:43-45 | a name capture starts at p, lies inside the text and has one capture |
| Patterns.PatientNameAt | backend-node/utils/analysis.js:43 | a "Patient Name" match starts at p, lies inside the text and has one capture |
| Patterns.LabelNameAt | backend-node/utils/analysis.js:44 | a "Name" match starts at p, lies inside the text and has one capture |
| Patterns.TitleNameAt | backend-node/utils/analysis.js:45 | a "Mr./Mrs./Ms./Dr." match starts at p, lies inside the text and has one capture |
| Patterns.AgeLabelAt | backend-node/utils/analysis.js:68 | an "Age" match starts at p, lies inside the text and has one capture |
| Patterns.AgeYearsAt | backend-node/utils/analysis.js:69 | an "n years" match starts at p, lies inside the text and has one capture |
| Patterns.FirstBounded | backend-node/utils/analysis.js:88 | the first gender word present at the position that is followed by a word boundary (`\b`) |
| Patterns.LabelledWordAt | backend-node/utils/analysis.js:88 | a labelled-word match starts at p, lies inside the text and has one capture |
| Patterns.LabelledWordCapture | backend-node/utils/analysis.js:88 | the capture of a labelled-word match is one of the listed words, as written in the text |
| Patterns.GenderLabelAt | backend-node/utils/analysis.js:88 | a "Gender/Sex" match starts at p, lies inside the text and has one capture |
| Patterns.GenderBeforeDateAt | backend-node/utils/analysis.js:89 | a "Male/Female before a date" match starts at p, lies inside the text and has one capture |
| Patterns.DateCapture | backend-node/utils/analysis.js:114-116 | a bare date match starts at p, lies inside the text and has one capture |
| Patterns.ReportDateAt | backend-node/utils/analysis.js:111-112 | a "Date of Report" match starts at p, lies inside the text and has one capture |
| Patterns.DateLabelAt | backend-node/utils/analysis.js:113 | a "Date" match starts at p, lies inside the text and has one capture |
| Patterns.IdAfterLabel | backend-node/utils/analysis.js:130 | an ID after its label starts at p, lies inside the text and has one capture |
| Patterns.IdLabelFrom | backend-node/utils/analysis.js:130 | a labelled-ID match starts at p, lies inside the text and has one capture |
| Patterns.IdShortAt | backend-node/utils/analysis.js:131 | a short "ID/UHID" match starts at p, lies inside the text and has one capture |
| Patterns.RangeAfter | backend-node/utils/analysis.js:256 | the row's range group starts after the unit and is a range match |
| Patterns.UnitEnd | backend-node/utils/analysis.js:256 | a unit alternative ends after its start |
| Patterns.RowUnit | backend-node/utils/analysis.js:256 | a row match found after a given unit starts at p and has four captures |
| Patterns.RowRest | backend-node/utils/analysis.js:256 | a row match with a given name end starts at p and has four captures |
| Patterns.RowFrom | backend-node/utils/analysis.js:256 | trying the lazy name lengths in order gives a row match with four captures |
| Patterns.RowAt | backend-node/utils/analysis.js:256 | a row match starts at p, lies inside the text and has four captures |
| Patterns.RowUnitShape | backend-node/utils/analysis.js:256 | a row match's value capture is a number text and its range capture matches the range pattern on its own |
| Patterns.RowUnitHereShape | backend-node/utils/analysis.js:256 | when the unit and the range are found right after a value, the row match ends there, its value capture starts with a digit and its range capture matches the range pattern on its own |
| Patterns.RowRestShape | backend-node/utils/analysis.js:256 | every match of the rest of a row, given where the test name ends, has that shape |
| Patterns.RowFromRest | backend-node/utils/analysis.js:256 | a row match found from a candidate name end is the rest of the row after some end at or beyond that candidate and within the text, the end the lazy quantifier settles on |
| Patterns.RowAtShape | backend-node/utils/analysis.js:256 | every row match at any position has that shape |
| Patterns.NamedRest | backend-node/utils/analysis.js:293 | a named-test match with a given filler end starts at p and has three captures |
| Patterns.NamedFiller | backend-node/utils/analysis.js:293 | the lazy `[A-Za-z\s]*?` filler gives a match with three captures |
| Patterns.NamedFrom | backend-node/utils/analysis.js:293 | a named-test match starts at p, lies inside the text and has three captures |
| Patterns.PatternAt | backend-node/utils/analysis.js:22-131 | every pattern's match at p starts at p, lies inside the text and has that pattern's number of captures |
| Patterns.Matches | backend-node/utils/analysis.js:259 | one attempt per start position, 0 to the text's length |
| Patterns.FirstMatchLeftmost | backend-node/utils/analysis.js:259 | the first match from an index is the entry at the first index holding one, and there is none exactly when no index holds one |
| Patterns.SearchLeftmost | backend-node/utils/analysis.js:23 | `match`/`exec` returns the match at the first position from `lastIndex` where the pattern matches, and fails only when it matches nowhere from there |
| TestStatus.Classify | backend-node/utils/analysis.js:355-357 | low exactly below the minimum, high exactly above the maximum, normal exactly in between |
| TestStatus.RemoveSpacesProps | backend-node/utils/analysis.js:362 | stripping whitespace leaves no whitespace, and leaves nothing exactly when the name was all whitespace |
| TestStatus.ParsedRange | backend-node/utils/analysis.js:349-351 | a range is parsed exactly when the text is non-empty and the range pattern matches in it |
| TestStatus.ParsedRangeBounds | backend-node/utils/analysis.js:350-353 | the parsed bounds are the two numbers of the first range match |
| TestStatus.StatusFromRange | backend-node/utils/analysis.js:349-358 | with a parseable range the status is the range's classification, and the test name plays no part |
| TestStatus.TableStatusFirst | backend-node/utils/analysis.js:363-369 | the table result is unknown exactly when no key from the position on is contained in the name; otherwise the first containing key's bounds decide |
| TestStatus.StatusFromTable | backend-node/utils/analysis.js:361-371 | without a parseable range the first table key contained in the lower-cased, space-stripped name decides, and unknown means no key is contained |
| TestStatus.UnknownIff | backend-node/utils/analysis.js:335-371 | the status is unknown exactly when no range parses and no table key is contained in the name |
| TestStatus.HdlKeyContains | backend-node/utils/analysis.js:337-340 | the key of "HDL Cholesterol" contains "cholesterol" but not "glucose" |
| TestStatus.RemoveSpacesAppend | backend-node/utils/analysis.js:362 | stripping whitespace distributes over concatenation |
| TestStatus.RemoveSpacesNone | backend-node/utils/analysis.js:362 | a name without whitespace is left as it is |
| TestStatus.TwoWordKey | backend-node/utils/analysis.js:362 | a name lowering to two words and one space has the two words run together as its key |
| TestStatus.HdlNameKey | backend-node/utils/analysis.js:362 | the key of "HDL Cholesterol" is "hdlcholesterol" |
| TestStatus.HbA1cNameKey | backend-node/utils/analysis.js:362 | the key of "HbA1c Level" is "hba1clevel" |
| TestStatus.HdlCholesterolStatus | backend-node/utils/analysis.js:337-367 | without a range, "HDL Cholesterol" is classified with the cholesterol bounds 0–200 |
| TestStatus.HbA1cLevelStatus | backend-node/utils/analysis.js:337-367 | without a range, "HbA1c Level" at 6.2 is high |
| TestStatus.HdlCholesterolUsesCholesterol | backend-node/utils/analysis.js:337-346 | without a range, a name with the key "hdlcholesterol" is classified with the cholesterol bounds 0–200, not the HDL ones |
| TestStatus.HbA1cKeyContains | backend-node/utils/analysis.js:337-346 | the key of "HbA1c Level" contains "hba1c" and none of the six keys before it |
| TestStatus.HbA1cLevelIsHigh | backend-node/utils/analysis.js:344 | without a range, a name with the key "hba1clevel" at 6.2 is high |
| TestStatus.RangeOfTexts | backend-node/utils/analysis.js:349-358 | "a-b" for two number texts parses to their exact values |
| TestResults.ExtractTestResults | backend-node/utils/analysis.js:161-326 | the extraction returns the demo entries for the demo report, and otherwise the row results followed by the named results |
| TestResults.ExtractRows | backend-node/utils/analysis.js:256-290 | the `while (exec)` row loop computes the row scan from index 0 |
| TestResults.RowResult | backend-node/utils/analysis.js:260-287 | one row match yields the filtered, classified result or nothing |
| TestResults.RowScanStep | backend-node/utils/analysis.js:259 | every row match found lies inside the text with its four captures, and the next search starts at its end |
| TestResults.ExtractNamed | backend-node/utils/analysis.js:293-322 | the `while (exec)` named loop appends to the row results exactly what the named scan gives |
| TestResults.RangeHereParses | backend-node/utils/analysis.js:263 | a captured row range re-parses as a range (also lines 349-353) |
| TestResults.RowEntryOfMatch | backend-node/utils/analysis.js:260-287 | a row entry has no skip word in its lower-cased name, has a name of length 3 or more, and a known status |
| TestResults.RowScanProps | backend-node/utils/analysis.js:256-290 | every structured-row result has no skip word in its name, a name of length 3 or more, and a status that is never unknown |
| TestResults.NamedEntryProps | backend-node/utils/analysis.js:296-319 | a named entry is classified by the first range in its 50-before, 100-after window, or with no range when there is none |
| TestResults.NamedScanStep | backend-node/utils/analysis.js:295 | every named match lies inside the text with its three captures |
| TestResults.NamedEntryNew | backend-node/utils/analysis.js:301 | a named entry is appended only when no earlier result's lower-cased name contains its lower-cased name |
| TestResults.NamedScanProps | backend-node/utils/analysis.js:295-322 | the named scan keeps the earlier results as a prefix, and each result it appends is new with respect to all before it |
| TestResults.NewNamesExtend | backend-node/utils/analysis.js:301 | newness carries over when a new entry is put in front of new entries |
| TestResults.TestResultsShape | backend-node/utils/analysis.js:254-322 | outside the demo, all row results come first and satisfy the row filters; after them every named result is new |
| TestResults.WholeEntry | backend-node/utils/analysis.js:279 | an entry with whole-number value and range, whose status is that range's classification, re-derives its status |
| TestResults.DecimalEntry | backend-node/utils/analysis.js:279 | the same for values and bounds with one decimal digit |
| TestResults.DemoGlucoseRecomputes | backend-node/utils/analysis.js:185-191 | the demo glucose entry's status is what `determineTestStatus` gives on its own fields |
| TestResults.DemoHbA1cRecomputes | backend-node/utils/analysis.js:193-199 | so is the HbA1c entry's |
| TestResults.DemoCholesterolRecomputes | backend-node/utils/analysis.js:201-207 | so is the cholesterol entry's |
| TestResults.DemoTriglyceridesRecomputes | backend-node/utils/analysis.js:209-215 | so is the triglycerides entry's |
| TestResults.DemoHdlRecomputes | backend-node/utils/analysis.js:217-223 | so is the HDL entry's |
| TestResults.DemoLdlRecomputes | backend-node/utils/analysis.js:225-231 | so is the LDL entry's |
| TestResults.DemoCreatinineRecomputes | backend-node/utils/analysis.js:233-239 | so is the creatinine entry's |
| TestResults.DemoUreaRecomputes | backend-node/utils/analysis.js:241-247 | so is the urea entry's |
| TestResults.DemoStatusesRecompute | backend-node/utils/analysis.js:180-252 | every one of the eight demo entries has the status `determineTestStatus` would give it |
| Patient.Candidates | backend-node/utils/analysis.js:48-50 | one candidate per pattern, in list order |
| Patient.FirstAccepted | backend-node/utils/analysis.js:48-63 | the `for ... break` loop returns the value of the first pattern whose capture the field accepts |
| Patient.AgeSexLine | backend-node/utils/analysis.js:22-39 | the Age/Sex step sets age and gender exactly as the Age/Sex fields say |
| Patient.ExtractPatientInfo | backend-node/utils/analysis.js:10-154 | the field-by-field extraction gives the patient record of the specification function |
| Patient.FirstSomeFirst | backend-node/utils/analysis.js:48-63 | there is no value exactly when no pattern gives one; otherwise the first pattern that gives a value wins |
| Patient.FirstSomeIndex | backend-node/utils/analysis.js:48-63 | a found value comes from a pattern such that no earlier one gave a value |
| Patient.AgeTextRoundTrip | backend-node/utils/analysis.js:28 | "n years" reads back as n |
| Patient.AcceptProps | backend-node/utils/analysis.js:53-57 | a non-empty capture the per-field guard keeps becomes a value of that field's acceptable form (also lines 76-77, 139) |
| Patient.AcceptedByProps | backend-node/utils/analysis.js:53-57 | an accepted name has length 3–50, is trimmed and contains neither "Age" nor "Sex". An age is "n years" with 0 < n < 150, a date is non-empty, and an ID is neither "profile" nor contains "Information" (also lines 76-77, 139) |
| Patient.FirstFromProps | backend-node/utils/analysis.js:48-63 | so is the value a whole pattern list gives (also lines 72-82, 119-145) |
| Patient.LowerEqUpperEq | backend-node/utils/analysis.js:95 | characters equal up to case have the same upper case |
| Patient.PrefixAtCIUpper | backend-node/utils/analysis.js:88 | a case-insensitive word match agrees with the word in upper case |
| Patient.CaptureUpper | backend-node/utils/analysis.js:95 | the upper case of a case-insensitively matched word is the word's upper case |
| Patient.GenderWordsUpper | backend-node/utils/analysis.js:88-95 | the listed gender words upper-case to MALE, FEMALE, M or F |
| Patient.NormalizeFromUpper | backend-node/utils/analysis.js:95-102 | a capture that upper-cases to one of the four spellings becomes "Male" or "Female" |
| Patient.GenderWordUpper | backend-node/utils/analysis.js:88 | every listed gender word upper-cases to one of the four spellings |
| Patient.LabelledGenderUpper | backend-node/utils/analysis.js:88 | so does every capture of a labelled gender match |
| Patient.GenderBeforeDateUpper | backend-node/utils/analysis.js:89 | so does every capture of the "gender before date" match |
| Patient.GenderFallbackProps | backend-node/utils/analysis.js:86-107 | the fallback gender is "Male" or "Female": the title-case branch is never reached |
| Patient.AgeSexProps | backend-node/utils/analysis.js:22-39 | the Age/Sex age is "n years" with 0 < n < 150, and its gender is "Male" or "Female" |
| Patient.PatientInfoProps | backend-node/utils/analysis.js:10-154 | the name is "N/A" or a valid name other than "Information"; each set field is valid; gender is only ever "Male" or "Female" |
| Summary.LinesOf | backend-node/utils/analysis.js:398-405 | one line per abnormal test |
| Summary.GenerateSummary | backend-node/utils/analysis.js:381-426 | the `+=` accumulation gives the summary of the specification function |
| Summary.AppendAdvice | backend-node/utils/analysis.js:411-421 | the advice step appends exactly the advice for the abnormal tests |
| Summary.AppendAbnormalLines | backend-node/utils/analysis.js:398-405 | the `forEach` appends exactly one line per abnormal test, in order |
| Summary.AbnormalLinesSnoc | backend-node/utils/analysis.js:398-405 | one more abnormal test adds its line at the end |
| Summary.AnalyzeMedicalReport | backend-node/utils/analysis.js:433-450 | the analysis succeeds and carries the extracted patient record, the extracted tests and their summary |
| Summary.AbnormalExact | backend-node/utils/analysis.js:382 | the abnormal tests are exactly the high and low ones |
| Summary.AbnormalNone | backend-node/utils/analysis.js:382-393 | with no high or low test there are no abnormal tests |
| Summary.HighWithAbnormal | backend-node/utils/analysis.js:411-419 | looking for a high test among the abnormal ones is the same as among all tests |
| Summary.AbnormalLineListed | backend-node/utils/analysis.js:398-405 | every abnormal test's line is in the lines |
| Summary.AbnormalLineArrow | backend-node/utils/analysis.js:399 | a line starts with ↑ exactly when the test is high |
| Summary.SummaryFrame | backend-node/utils/analysis.js:385-423 | with tests, the summary starts with the header and ends with the disclaimer |
| Summary.SummaryNoTests | backend-node/utils/analysis.js:387-390 | with no tests, the summary ends with the manual-review line and not with the disclaimer |
| Summary.SummaryListsAbnormal | backend-node/utils/analysis.js:396-407 | every high or low test's line appears in the summary |
| Summary.SummaryAllNormal | backend-node/utils/analysis.js:393-394 | with tests but none abnormal, the summary says all of them are normal |
| Summary.SummaryAdvice | backend-node/utils/analysis.js:411-421 | a high glucose, cholesterol or pressure test brings its advice into the summary |
| Summary.AdviceSplit | backend-node/utils/analysis.js:411-423 | the advice texts and the disclaimer concatenate the same whichever way they are grouped |
| Summary.AnalysisHeader | backend-node/utils/analysis.js:385 | through the full analysis the name is never empty, so the header never falls back to "Patient" (also lines 436-442, 148-150) |
| Smartwatch.ScoreOf | backend-node/routes/smartwatch.js:25-36 | the score is between 0 and 10 |
| Smartwatch.CalculateMentalHealthScore | backend-node/routes/smartwatch.js:25-36 | the step-by-step score is the score function, within 0 to 10 |
| Smartwatch.ScoreRange | backend-node/routes/smartwatch.js:26-35 | the bonus never combines with the stress or sleep penalty. The score is 3 to 10, it is 10 exactly without penalties, and the bonus counts only when there is a penalty |
| Smartwatch.ScoreMinimum | backend-node/routes/smartwatch.js:26-35 | the minimum 3 is reached |
| Smartwatch.ReadingOf | backend-node/routes/smartwatch.js:40-41 | a generated reading stores the score of its own values |
| Smartwatch.ReadingStore.constructor | backend-node/routes/smartwatch.js:54-58 | the initial loop stores ten readings with ids 1 to 10, one per sample, in order |
| Smartwatch.ReadingStore.GenerateSmartwatchData | backend-node/routes/smartwatch.js:13-22 | the id counter is incremented and the reading takes the new id; the buffer is untouched |
| Smartwatch.ReadingStore.Tick | backend-node/routes/smartwatch.js:39-51 | the id goes up by one, the new reading is pushed, the oldest is shifted out past ten, and the buffer stays valid (at most ten, consecutive ids ending at the counter, stored scores correct) |
| Smartwatch.WindowProps | backend-node/routes/smartwatch.js:43-48 | after a push at most ten readings remain, the new one is last, and only the oldest is dropped, the rest keeping their order |
| Smartwatch.TotalScoreBounds | backend-node/routes/smartwatch.js:92 | the total of n scores between 0 and 10 is between 0 and 10n |
| Smartwatch.AverageBounds | backend-node/routes/smartwatch.js:93 | such an average lies in 0–10 |
| Smartwatch.RoundKeepsThreshold | backend-node/routes/smartwatch.js:93-97 | rounding the average to one decimal does not move it across a whole-number threshold, for up to ten readings |
| Smartwatch.BandIff | backend-node/routes/smartwatch.js:95-97 | Stressed exactly below 5, Moderate exactly from 5 to below 8, Healthy exactly from 8 |
| Smartwatch.ScoreRouteProps | backend-node/routes/smartwatch.js:84-104 | an empty buffer gives average 0 and "No data available". Otherwise the rounded average of the stored scores is reported with the band of the exact average and the count |
| Smartwatch.Recommendations | backend-node/routes/smartwatch.js:115-172 | an empty buffer gives the single no-data message; otherwise the rule list for the latest reading, with its score and timestamp |
| Smartwatch.PushStress | backend-node/routes/smartwatch.js:128-134 | the stress group is appended |
| Smartwatch.PushSleep | backend-node/routes/smartwatch.js:137-142 | the sleep group is appended |
| Smartwatch.PushHeart | backend-node/routes/smartwatch.js:145-150 | the heart-rate group is appended |
| Smartwatch.PushSteps | backend-node/routes/smartwatch.js:153-157 | the steps group is appended |
| Smartwatch.PushOverall | backend-node/routes/smartwatch.js:160-165 | the overall group is appended |
| Smartwatch.RecommendationsNonEmpty | backend-node/routes/smartwatch.js:128-165 | a reading whose stored score is its own score always gets at least one recommendation |
| Smartwatch.RecommendationsOrder | backend-node/routes/smartwatch.js:128-165 | high stress puts the three calming steps first; a low score puts the talking and journaling steps last |
| Smartwatch.GeneratedHeartAdvice | backend-node/routes/smartwatch.js:17 | for generated readings the heart group says nothing exactly for rates 101 to 120 (also lines 145-150) |
| Smartwatch.DataRoute | backend-node/routes/smartwatch.js:65-71 | `/data` returns the whole buffer and its length |
| Smartwatch.LatestRoute | backend-node/routes/smartwatch.js:183-195 | `/latest` fails exactly when the buffer is empty, and otherwise returns the last reading |
| MlApi.MissingMembers | backend/app.py:61-90 | `missing` holds exactly the expected features that Python's `in` does not find in the body: keys of an object, string elements of a list, substrings of a string |
| MlApi.MissingAll | backend/app.py:61 | a body holding none of the features has every feature missing, in expected order |
| MlApi.MissingAppend | backend/app.py:61 | the missing list is computed feature by feature, in expected order |
| MlApi.ProvidedMembers | backend/app.py:118 | `provided_features` holds exactly the expected features that `in` finds in the body |
| MlApi.FeatureVector | backend/app.py:66-94 | the vector has one value per expected feature |
| MlApi.PredictWithProps | backend/app.py:55-73 | a null, number or boolean body is a 500. Any other body gets 400 exactly when a feature is missing from it, and then the model is not consulted. A list or string holding every feature is a 500. On an object with every feature the model sees its values in expected order, and 1, and only 1, gives the positive label (also lines 84-100) |
| MlApi.EmptyListMissesAll | backend/app.py:55-63 | an empty list as the body gets 400 listing all the features, for diabetes and for heart disease (also lines 84-92) |
| MlApi.VectorLengths | backend/app.py:66-94 | the diabetes vector has 8 values and the heart vector 13 |
| MlApi.FloatAll | backend/app.py:126 | a converted list has one number per value |
| MlApi.FloatAllProps | backend/app.py:126-137 | conversion succeeds exactly when every value converts, giving their numbers in order. Otherwise the first value that fails decides the error |
| MlApi.ParkinsonsProps | backend/app.py:109-140 | a null, number or boolean body is a 500. For any other body the no-features 400 comes exactly when none of the seven features is in it, and a list or string holding one is the inner handler's 500. On an object absent features are 0 in a seven-slot vector, and the response carries the label and the number |
| MlApi.EmptyListNoFeatures | backend/app.py:109-120 | an empty list as the body gets the no-features 400 |
| ChatService.Or | frontend/components/MediBot.tsx:277 | the `or` of two texts: the first when non-empty, else the second |
| ChatService.AnsweredText | frontend/components/MediBot.tsx:262 | the answered text is never empty and is the prediction, the final response or the apology |
| MediBot.BotResponseIgnoresCase | frontend/components/MediBot.tsx:438 | inputs equal up to case get the same reply |
| MediBot.ReplyOrder | frontend/components/MediBot.tsx:440-450 | greeting, pain, fever, thanks and default are chosen exactly in that priority, the default only when no keyword occurs |
| MediBot.ThisHeadacheIsGreeted | frontend/components/MediBot.tsx:440-441 | "this headache" gets the greeting, because "this" contains "hi" |
| MediBot.NoHelloInThanksPain | frontend/components/MediBot.tsx:440 | "thank you, the pain" does not contain "hello" |
| MediBot.NoHiInThanksPain | frontend/components/MediBot.tsx:440 | nor does it contain "hi" |
| MediBot.ThanksWithPainGetsPainReply | frontend/components/MediBot.tsx:442-447 | "thank you, the pain" gets the pain reply, not the thanks reply |
| MediBot.BotReplyProps | frontend/components/MediBot.tsx:259-304 | the reply is never empty. An empty error gives the local reply with the unavailable note, a non-empty error is shown as is, and with no connection the local reply comes first |
| MediBot.EntryLines | frontend/components/MediBot.tsx:355-357 | one line per patient entry |
| MediBot.InfoLinesSnoc | frontend/components/MediBot.tsx:355-357 | one more entry adds its line at the end |
| MediBot.InfoLineListed | frontend/components/MediBot.tsx:356 | every entry with a truthy value is listed |
| MediBot.InfoLinesSkipEmpty | frontend/components/MediBot.tsx:356 | an entry with an empty value adds nothing |
| MediBot.ResultText | frontend/components/MediBot.tsx:351-378 | the `+=` formatter gives the report as the component writes it, each test's block read under `testName` and `referenceRange` |
| MediBot.AppendPatientSection | frontend/components/MediBot.tsx:353-359 | the patient section is appended only when patient information is present |
| MediBot.AppendTestsSection | frontend/components/MediBot.tsx:361-371 | the tests section, with the blocks as written, is appended only when there are tests |
| MediBot.AppendInfoLines | frontend/components/MediBot.tsx:355-357 | the `forEach` appends the truthy entries' lines in order |
| MediBot.AppendTestBlocks | frontend/components/MediBot.tsx:363-369 | the `forEach` appends one block per test in order, each reading `testName` and `referenceRange` |
| MediBot.TestBlocksSnoc | frontend/components/MediBot.tsx:363-369 | one more test adds its as-written block at the end |
| MediBot.ReportFrame | frontend/components/MediBot.tsx:351-378 | the report always starts with its heading and ends with the note |
| MediBot.StatusName | backend-node/utils/analysis.js:355-371 | every status prints as a non-empty name |
| MediBot.AsWrittenLosesNameAndRange | frontend/components/MediBot.tsx:364-367 | as written, an analysed test prints under the name "undefined" and never gets a reference line |
| MediBot.ReportContainsBlock | frontend/components/MediBot.tsx:351-378 | each test's block occurs in the report built from it, whichever properties are read |
| MediBot.ReportTextSplit | frontend/components/MediBot.tsx:351-378 | with tests, the report is the text before the blocks, the blocks and the text after them |
| MediBot.AsWrittenReportSaysUndefined | frontend/components/MediBot.tsx:351-378 | as written, the whole report holds each analysed test's block headed "**undefined**" and followed by its value line |
| MediBot.ReportIntendedShowsTest | frontend/components/MediBot.tsx:351-378 | the intended report, reading `test` and `range`, shows each analysed test's name, and its reference line whenever the range is non-empty |
| MediBot.BlockShowsNameAndRange | frontend/components/MediBot.tsx:363-369 | reading `test` and `range`, the block is headed by the test's name, has a reference line exactly when the range is non-empty, and a status line |
| MediBot.ChatState.constructor | frontend/components/MediBot.tsx:48-57 | the chat starts empty, not typing, not analysing, with no error and no file |
| MediBot.ChatState.ShowWelcome | frontend/components/MediBot.tsx:86-96 | the welcome timer leaves exactly the welcome message and nothing else changes |
| MediBot.ChatState.SendMessage | frontend/components/MediBot.tsx:222-310 | blank input changes nothing. Otherwise the user's message and the bot's reply are appended, the input is cleared and typing ends |
| MediBot.ChatState.HandleFileUpload | frontend/components/MediBot.tsx:313-411 | no file changes nothing; a non-PDF only sets the error message. A PDF appends the upload message and then the report as the component writes it or the error reply, clears the error and the file, and ends analysing |
| MediBot.ChatState.NewChat | frontend/components/MediBot.tsx:454-464 | exactly one bot welcome message is left and the input is empty |
| MedicalChatbot.AIResponse | frontend/components/medical-chatbot.tsx:172-190 | the fixed image reply for images and the fixed voice reply for voice, whatever the input; otherwise the chosen canned reply |
| MedicalChatbot.DefaultContent | frontend/components/medical-chatbot.tsx:98 | non-empty content is kept; empty content becomes "Image uploaded" for an image and "Voice message" otherwise; the result is never empty |
| MedicalChatbot.BotText | frontend/components/medical-chatbot.tsx:126-167 | the bot's text is never empty |
| MedicalChatbot.BotTextProps | frontend/components/medical-chatbot.tsx:126-167 | prediction, then final response, then apology. An error is shown as is, an empty one becomes the difficulties text, and with no connection the text opens with the connection notice and contains the local reply |
| MedicalChatbot.OfflineImageReply | frontend/components/medical-chatbot.tsx:158-176 | offline, an image gets the same text whatever its content and the random choice, and that text contains the image reply |
| MedicalChatbot.HashRun | frontend/components/medical-chatbot.tsx:252 | the run of leading `#` lies inside the text |
| MedicalChatbot.RemoveStarsAbsorbs | frontend/components/medical-chatbot.tsx:250-251 | removing `**` before removing `*` changes nothing: all stars go |
| MedicalChatbot.RemoveStarsKeeps | frontend/components/medical-chatbot.tsx:251 | after removing stars no `*` is left, and no absent character appears |
| MedicalChatbot.RemoveDoubleStarsKeeps | frontend/components/medical-chatbot.tsx:250 | removing `**` introduces no character |
| MedicalChatbot.RemoveHeadingsKeeps | frontend/components/medical-chatbot.tsx:252 | removing heading markers introduces no character |
| MedicalChatbot.RemoveEmojiKeeps | frontend/components/medical-chatbot.tsx:253 | after the emoji removal none of the single listed emoji is left, and no absent character appears |
| MedicalChatbot.TrimKeeps | frontend/components/medical-chatbot.tsx:254 | the trim introduces no character |
| MedicalChatbot.StripMarkupKeeps | frontend/components/medical-chatbot.tsx:249-254 | the whole clean-up introduces no character |
| MedicalChatbot.CleanSpeechProps | frontend/components/medical-chatbot.tsx:249-254 | the spoken text has no `*`, no ✅, ❌ or 🎉, and does not start or end with whitespace |
| MedicalChatbot.SpeechOfProps | frontend/components/medical-chatbot.tsx:249-256 | nothing is spoken exactly when the text is blank after markup removal; otherwise the non-empty cleaned text is spoken |
| MedicalChatbot.HeadingMarkerDropped | frontend/components/medical-chatbot.tsx:252 | one to six `#` followed by a space are removed |
| MedicalChatbot.HashRunPrefix | frontend/components/medical-chatbot.tsx:252 | the hash run of a hash prefix is its length |
| MedicalChatbot.WarningCanSurvive | frontend/components/medical-chatbot.tsx:253 | removing ✅ from "⚠✅\u{FE0F}" joins a fresh ⚠️, which is then spoken |
| MedicalChatbot.ChatbotState.constructor | frontend/components/medical-chatbot.tsx:34-49 | the chat starts with the welcome message, empty input, not loading, and the API status "checking" |
| MedicalChatbot.ChatbotState.CheckApiStatus | frontend/components/medical-chatbot.tsx:76-86 | the status becomes online or offline from the probe's result, and nothing else changes |
| MedicalChatbot.ChatbotState.SendMessage | frontend/components/medical-chatbot.tsx:92-171 | blank text input changes nothing and speaks nothing. Otherwise the user message (with default content) and the bot's text are appended, the input is cleared and loading ends. The status is online exactly when answered, and only an answered text is stored and spoken |
| MedicalChatbot.ChatbotState.HandleImageUpload | frontend/components/medical-chatbot.tsx:199-208 | a missing or non-image file changes nothing and speaks nothing. An image is sent as an image message with empty content and its data URL, with the status, last bot message and speech set as for any sent message |
| MentalHealth.StatusColorOf | frontend/app/mental-health/page.tsx:177-181 | green exactly from 8, yellow exactly from 5 to below 8, red exactly below 5 |
| MentalHealth.ColorMatchesBand | frontend/app/mental-health/page.tsx:177-181 | green, yellow and red coincide with the score route's Healthy, Moderate and Stressed |
| MentalHealth.ColorMatchesScoreRoute | frontend/app/mental-health/page.tsx:221 | the colour of the reported average agrees with the reported status; an empty buffer is red |
| MentalHealth.LatestReading | frontend/app/mental-health/page.tsx:93 | the last reading, or none exactly when there are no readings |
| MentalHealth.LatestAgreesWithRoute | frontend/app/mental-health/page.tsx:93 | the page's latest reading is what `/latest` returns |
| MentalHealth.Bars | frontend/app/mental-health/page.tsx:316 | there are ten bars |
| MentalHealth.CountPrefix | frontend/app/mental-health/page.tsx:316-321 | among the first k bars, as many are filled as there are indices below both k and the stress |
| MentalHealth.FilledBars | frontend/app/mental-health/page.tsx:316-321 | the number of filled bars is the stress level bounded to 0–10 |

## Left out

- Tesseract OCR (`extractTextFromImage`) and `Promise.all`: foreign library and asynchronous I/O. The page texts are inputs.
- All `console.log`/`console.error` calls: diagnostics only.
- Whitespace is a fixed ASCII set (space, tab, newline, carriage return, vertical tab, form feed). JavaScript's `trim` and `\s` also cover Unicode spaces.
- `toLowerCase`/`toUpperCase` act on ASCII letters only.
- Case-insensitive matching (`/i`) folds ASCII letters only.
- Smartwatch.ReadingStore.Tick: the timer (`setInterval`) is not modelled. Each `Math.random`/clock draw of `generateSmartwatchData` is an input `Sample`.
- Express routing and `res.json`: the handlers are modelled as functions from the buffer to the response.
- The `try`/`catch` blocks returning 500 in the smartwatch handlers: nothing in the modelled bodies throws.
- In `backend/app.py` the modelled 500s are the TypeError of `in` on a null, number or boolean body, the TypeError of `data[f]` on a list or string body, the AttributeError of `data.get` on a list or string body, and a `float()` failure other than ValueError. The text of each 500 message (`str(e)`) is not modelled. A `get_json()` that fails on a body that is not JSON is not modelled; the outer handler would turn it into a 500 as well.
- Smartwatch.ScoreRouteProps: `toFixed(1)` is modelled as half-up rounding on exact rationals, not as binary floating point. The band is proved unaffected for up to ten integer scores.
- Scores, heart rates, stress levels and steps are unbounded integers, and sleep hours are exact reals: no JavaScript floating point.
- MlApi.PredictWithProps: `joblib` loading, `predict` and `np.array` are foreign. `predict` is an uninterpreted function, and an exception it might raise (the 500 branch) is not modelled.
- MlApi.ParkinsonsProps: Python's `float()` on text is an uninterpreted parameter, and the exception messages are not modelled.
- `_model_path` filesystem probing and `app.run` in backend/app.py: I/O.
- TestResults.TestResult: `value` is kept as the matched text, as in the source; it is parsed only for classification.
- Patterns.PatternAt: the scanners' contracts state only where a match lies and how many captures it has. Which texts match is given by the scanner bodies, which follow the regular expressions. The lemmas above prove the properties the extraction needs (row shape, gender captures, range captures).
- All React rendering, framer-motion, scrolling, the health-tip rotation and timers.
- MediBot.ChatState.HandleFileUpload: the `setTimeout` that clears the upload error after three seconds is not modelled.
- MediBot: speech recognition and voice selection are not modelled.
- MediBot: `setMessages(prev => ...)` is modelled as an immediate update in program order.
- MediBot: `handleFileChange` and `handleRemoveFile` are not modelled.
- The `fetch` calls of both chat components are not modelled: their outcome (`ChatService.TextOutcome`, `MediBot.UploadOutcome`) is an input.
- Message ids (`Date.now()`) and timestamps are not modelled: ids are inputs and timestamps are dropped.
- MedicalChatbot.AIResponse: the random choice among the three text replies is an input index.
- MedicalChatbot: speech synthesis itself is left out; only the text that would be spoken is modelled.
- MedicalChatbot: `MediaRecorder` voice recording and `FileReader` are left out.
- MedicalChatbot: `handleKeyPress` is left out.
- MedicalChatbot.CleanSpeechProps: the two-character warning emoji ⚠️ is not in the "no listed emoji" property. Removing ✅ between its two code points can form a fresh one (`MedicalChatbot.WarningCanSurvive`), so the property holds only for the single-character emoji.
- Ocr.CleanTextNormalized: runs of three or more newlines are not excluded from the output. The collapse runs before the per-line trim, so they can survive (`Ocr.CleanTextLeavesThreeBreaks`). This is how the code behaves, and it is stated as such.
- The Avatar and hero components and the other presentational pages: no logic to model.
- The test clients `backend/test_analyze.py` and `test-n8n-connection.js` are not part of this model.

## Findings

| source | as written | input that shows it | evidently intended | confidence | as-written member | corrected member |
|---|---|---|---|---|---|---|
| frontend/components/MediBot.tsx:364-367 | the formatter reads `test.testName` and `test.referenceRange`; the component model (`ReportText`, `ResultText`, `HandleFileUpload`) does the same | any analysed report: `analyzeMedicalReport` returns objects with `test` and `range` (backend-node/utils/analysis.js:281-287), so every test prints as "**undefined**" with no Reference line (`MediBot.AsWrittenLosesNameAndRange` for one block) | print the test's name and, when it is non-empty, its reference range: `ReportTextIntended`, built on `TestBlock` (`MediBot.BlockShowsNameAndRange` for one block) | medium, not executed | MediBot.AsWrittenReportSaysUndefined | MediBot.ReportIntendedShowsTest |
