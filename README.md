# cvOS platform core, modelled in Dafny

This project models the core logic of the cvOS platform. It has two parts: a Python API and a Next.js front end.

- **ATS scorer.** `ATSAnalyzer` takes the text extracted from a CV and looks for five standard sections by keyword, in the lower-cased text. Each section found is worth 12 points, and text longer than 100 characters earns 40 more. The score maps to one of three summaries. The model is the class `AtsChecker.Analyzer`: its fields are updated by the loop over the sections in `CheckSections`, whose inner loop over one section's keywords is `ScanKeywords`; both are proved against the specification function `FoundSectionsOf`.
- **AI service.** `AIService` has a model only when an API key is set. `analyze_cv` then sends a prompt holding at most the first 8000 characters of the text. It cleans the reply by removing the Markdown fences and stripping whitespace, and it turns any exception into an error dictionary. The generator is passed in as a function that either returns text or raises.
- **Profile dashboard.** This is a tabbed single-profile form of eight string fields, with a sidebar of four sections. Edits change only the in-memory profile. The store (`localStorage`, here a class holding a map) is written only by the explicit save, and it is read once when the page mounts. `JSON.stringify` for the record and the part of `JSON.parse` that reads such text are written out, and their round trip is proved rather than assumed.
- **ATS checker page.** The page state is the file, the loading flag, the result and the AI toggle. The handler has two awaits, `fetch` and `res.json()`. It is split before the first: `StartAnalyze` chooses the request, and `FinishAnalyze` takes one outcome that covers both awaits (an ok response whose body parsed, a non-ok response, or a throw from `fetch` or from `res.json()`). `HandleAnalyze` composes the two.
- **Locale.** This covers the three-way cycle of the home page, the provider's string tables with the `t` lookup and the `useLanguage` guard, and the selector's current-language lookup and its open/close menu.

The modules are:
- one per source file: `AtsChecker`, `AiService`, `Dashboard`, `CheckerPage`, `HomePage`, `LanguageProvider`, `LanguageSelector`;
- `PyStrings`, the Python string built-ins the API calls (`str.lower`, `in`, `str.replace`, `str.strip`);
- `ProfileJson`, the JSON text of the profile;
- `LocalStorage`, the browser store;
- `Wrappers`, for `Option` and `Result`.

Where the code and the product's own description differ, the model follows the code:
- the dashboard is this single tabbed form with an explicit save button, not a multi-step wizard with entry lists and write-through saving;
- the checker page does not enforce the 5 MB limit its text mentions.

## Model

| member | source | states |
|---|---|---|
| AtsChecker.Analyzer.constructor | apps/api/ats_checker.py:5-9 | A new analyzer holds the given text, no sections and a score of 0. |
| AtsChecker.Analyzer.CheckSections | apps/api/ats_checker.py:31-66 | The loop over the sections appends exactly the present sections, in table order, to `sectionsFound`, and they add the section points to `score`. |
| AtsChecker.Analyzer.ScanKeywords | apps/api/ats_checker.py:52-57 | The loop over one section's keywords, which stops at the first hit, finds a keyword exactly when one of them occurs in the lower-cased text. |
| AtsChecker.Analyzer.CalculateReadability | apps/api/ats_checker.py:68-78 | Adds 40 points to the score when the text has more than 100 characters, and nothing otherwise. |
| AtsChecker.Analyzer.Analyze | apps/api/ats_checker.py:19-29 | Runs both checks on top of what the analyzer already holds. It reports the accumulated score and sections, the text length and the score's summary. |
| AtsChecker.AnalyzeText | apps/api/ats_checker.py:19-29 | On a fresh analyzer the score is 12 per section found plus 40 for text over 100 characters; it lies in 0..100; the report carries the sections, `len(text)` and the summary of the score. |
| AtsChecker.AnalyzeTwice | apps/api/ats_checker.py:8-9 | A second `analyze` on the same object lists the sections twice and doubles the score. For text over 100 characters the score then differs from the first and the summary is "Excelente…". |
| AtsChecker.SectionScore | apps/api/ats_checker.py:64-66 | `round(found/5*60)` is exact: the points times five equal the count times 60, so each section is worth 12. |
| AtsChecker.ReadabilityScore | apps/api/ats_checker.py:73-75 | The readability points are 40 or 0, and they are positive exactly when the length exceeds 100. |
| AtsChecker.SummaryFor | apps/api/ats_checker.py:80-86 | "Excelente…" iff score ≥ 80, "Buen inicio…" iff 50 ≤ score < 80, "Baja compatibilidad…" iff score < 50. |
| AtsChecker.Analyzer.GenerateSummary | apps/api/ats_checker.py:80-86 | The summary of the analyzer's current score is "Excelente…" iff score ≥ 80, "Buen inicio…" iff 50 ≤ score < 80, and "Baja compatibilidad…" iff score < 50. |
| AtsChecker.AnalysisPointsSpec | apps/api/ats_checker.py:48-75 | One analysis adds 12·(sections found) + (40 if the text is over 100 characters, else 0), which lies between 0 and 100. |
| AtsChecker.FoundSectionsBounded | apps/api/ats_checker.py:49-62 | At most `len(section_keywords)` sections are found. |
| AtsChecker.SectionFoundIff | apps/api/ats_checker.py:46-62 | A section is reported exactly when one of its keywords is a substring of the lower-cased text. |
| AtsChecker.SectionFoundAt | apps/api/ats_checker.py:53-61 | Any one keyword occurring in the lower-cased text is enough to report its section. |
| AtsChecker.NoLettersNoSections | apps/api/ats_checker.py:46-62 | A text with no ASCII letter, such as the empty text of a scanned PDF, reports no section and earns only the readability points. |
| AtsChecker.KeywordsStartWithLetters | apps/api/ats_checker.py:37-43 | Every keyword of the table is non-empty and starts with a lower-case ASCII letter. |
| AtsChecker.FoundSectionsOrdered | apps/api/ats_checker.py:37-61 | The reported sections are names from the table, in declaration order, without repetition, and at most five. |
| AtsChecker.ShortTextNeverExcellent | apps/api/ats_checker.py:73-81 | Text of at most 100 characters scores at most 60, so it never gets the "Excelente…" summary. |
| AtsChecker.FoundAppend | apps/api/ats_checker.py:51-61 | The sections found in a concatenated table are those of the first part followed by those of the second. This is what the outer loop appends per entry. |
| AtsChecker.FoundMembership | apps/api/ats_checker.py:51-61 | A name is found iff some table entry with that name has a keyword present. |
| AtsChecker.FoundOrdered | apps/api/ats_checker.py:51-61 | For a table with distinct names, the found names appear in table order without repetition. |
| AtsChecker.SectionNamesDistinct | apps/api/ats_checker.py:37-43 | The five section names are pairwise different. |
| AtsChecker.Found | apps/api/ats_checker.py:51-62 | The sections found for a keyword table number at most the table's entries. |
| AtsChecker.FoundSectionsOf | apps/api/ats_checker.py:46-62 | One analysis finds at most `len(section_keywords)` sections. |
| PyStrings.Lower | apps/api/ats_checker.py:46 | The model's `str.lower` maps each character to its lower-case form, one for one, so the result has the input's length. |
| PyStrings.ContainsAt | apps/api/ats_checker.py:56 | A needle found at any position makes `kw in text_lower` true. |
| PyStrings.NotContainsWithoutFirst | apps/api/ats_checker.py:56 | A needle whose first character does not occur in the text is not contained in it. |
| PyStrings.Contains | apps/api/ats_checker.py:56 | `kw in text_lower` holds only for a needle no longer than the text, and always for the empty needle. |
| AiService.AIService.constructor | apps/api/ai_service.py:8-15 | With a missing or empty key there is no model; otherwise the model is "gemini-pro" with that key. |
| AiService.AIService.AnalyzeCv | apps/api/ai_service.py:17-40 | Without a model, nothing is sent and the not-configured error is returned. Otherwise the prompt is sent, and the result is the cleaned reply or an error dictionary carrying the exception's message. |
| AiService.Truncate | apps/api/ai_service.py:30 | `text[:8000]` is a prefix of the text of length min(len, 8000). |
| AiService.Prompt | apps/api/ai_service.py:21-31 | The prompt starts with the fixed instructions and is never longer than those plus 8000 characters plus the footer. |
| AiService.PromptEmbedsPrefix | apps/api/ai_service.py:21-31 | The prompt is the fixed header, then a prefix of at most 8000 characters of the text (all of it when shorter), then the fixed footer. |
| AiService.CleanResponse | apps/api/ai_service.py:37 | The cleaned reply is no longer than the reply, and it has no leading or trailing whitespace. |
| AiService.CleanWithoutBackticks | apps/api/ai_service.py:37 | A reply without backticks cleans to itself, stripped. |
| AiService.CleanFencedJson | apps/api/ai_service.py:37 | A reply "```json" + body + "```", with no backtick in the body, cleans to the stripped body. |
| PyStrings.ReplaceAbsent | apps/api/ai_service.py:37 | `replace` of a pattern whose first character does not occur changes nothing. |
| PyStrings.Replace | apps/api/ai_service.py:37 | Replacing by the empty string never lengthens the text, and a text shorter than the pattern comes back unchanged. |
| PyStrings.Strip | apps/api/ai_service.py:37 | `strip` never lengthens the text, and its result neither starts nor ends with whitespace. |
| PyStrings.StripSpec | apps/api/ai_service.py:37 | `strip` returns a slice of its input, and the characters removed from both ends are all whitespace. |
| Dashboard.Set | apps/web/app/dashboard/page.tsx:48-49 | The spread update gives field `f` the value `v` and leaves the other seven fields unchanged. |
| Dashboard.Get | apps/web/app/dashboard/page.tsx:48 | `formData[field]` is the value stored under that field's key, at the key's position in the saved object. |
| Dashboard.DashboardPage.constructor | apps/web/app/dashboard/page.tsx:25-38 | The page starts with all eight fields empty, not saved, on the profile section. |
| Dashboard.DashboardPage.LoadOnMount | apps/web/app/dashboard/page.tsx:41-46 | A missing or empty stored text keeps the defaults. A stored profile replaces `formData` with its parse. On text the parse rejects, `JSON.parse` throws and nothing catches it, so the mount effect fails; `ParseFailed` records that throw, and it is not a recovery. `formData` is unchanged only because the effect never reaches `setFormData`. |
| Dashboard.DashboardPage.HandleInputChange | apps/web/app/dashboard/page.tsx:48-51 | One field takes the value, untruncated (the 500-character figure at line 125 is display only). The page becomes unsaved. The frame shows the store is not written. |
| Dashboard.DashboardPage.HandleSave | apps/web/app/dashboard/page.tsx:53-55 | The store gains `JSON.stringify(formData)` under "cvos_profile", and nothing else in it changes. The page becomes saved. |
| Dashboard.DashboardPage.SelectSection | apps/web/app/dashboard/page.tsx:205-226 | Each sidebar button sets `activeSection` to its own section and changes nothing else. |
| Dashboard.FreshSessionWithoutSave | apps/web/app/dashboard/page.tsx:29-46 | Mounting with nothing stored leaves the all-empty profile on the profile section. |
| Dashboard.SaveThenReload | apps/web/app/dashboard/page.tsx:44-54 | Saving and then mounting a new page loads exactly the saved profile. |
| Dashboard.EditSaveReload | apps/web/app/dashboard/page.tsx:48-54 | An edit followed by a save persists: the stored text parses back to a profile whose edited field holds the new value. |
| ProfileJson.ParseStringify | apps/web/app/dashboard/page.tsx:44-54 | `JSON.parse(JSON.stringify(p))` gives back `p` for every profile. |
| ProfileJson.Stringify | apps/web/app/dashboard/page.tsx:54 | `JSON.stringify(formData)` is an object text: at least two characters, from '{' to '}'. So it is never empty, and the mount effect's truthiness test always lets it through. |
| ProfileJson.Parse | apps/web/app/dashboard/page.tsx:44 | Text the parse accepts starts with '{' and has at least two characters. |
| ProfileJson.QuoteParses | apps/web/app/dashboard/page.tsx:44-54 | A string literal written by `JSON.stringify` reads back as the same string, and the text after it is left unread. |
| ProfileJson.EscapeParses | apps/web/app/dashboard/page.tsx:44-54 | The escaped characters of a string read back as that string up to the closing quote. |
| ProfileJson.EscapeCharParses | apps/web/app/dashboard/page.tsx:44-54 | Each escaped character reads back as that character. |
| ProfileJson.MemberParses | apps/web/app/dashboard/page.tsx:44-54 | One `"key":value` member reads back as its value. |
| ProfileJson.MembersParse | apps/web/app/dashboard/page.tsx:44-54 | The member list of the object reads back as the field values in key order. |
| ProfileJson.HexDigitValue | apps/web/app/dashboard/page.tsx:54 | Each hex digit used in a `\u00XX` escape reads back as its value. |
| LocalStorage.Storage.GetItem | apps/web/app/dashboard/page.tsx:42 | `getItem` gives the stored text exactly when the key is present. |
| LocalStorage.Storage.SetItem | apps/web/app/dashboard/page.tsx:54 | `setItem` updates that key and no other. |
| CheckerPage.ApiUrl | apps/web/app/checker/page.tsx:32 | The base URL is the environment value when it is non-empty, and "http://localhost:8000" otherwise. |
| CheckerPage.RequestUrl | apps/web/app/checker/page.tsx:32-35 | The request URL is the base URL followed by a non-empty endpoint. |
| CheckerPage.RequestUrlChoosesEndpoint | apps/web/app/checker/page.tsx:32-35 | The request URL starts with the base URL. It ends in "/analyze-with-ai" iff AI is on, and in "/analyze" iff AI is off. |
| CheckerPage.AnalyzeDisabled | apps/web/app/checker/page.tsx:106 | The button is enabled exactly when there is a file and no analysis is running. |
| CheckerPage.ShownSections | apps/web/app/checker/page.tsx:145 | The shown list is `sections_found` when present (even when empty), else `strengths`, else empty. |
| CheckerPage.ShowsWeaknesses | apps/web/app/checker/page.tsx:152-163 | The weaknesses block is shown exactly when `weaknesses` is present. |
| CheckerPage.CheckerPageState.constructor | apps/web/app/checker/page.tsx:10-13 | The page starts with no file, no result, not loading and AI off. |
| CheckerPage.CheckerPageState.HandleFileChange | apps/web/app/checker/page.tsx:15-20 | Choosing a file sets it as the file and clears the result. An empty file list changes nothing. |
| CheckerPage.CheckerPageState.SetUseAI | apps/web/app/checker/page.tsx:96 | The checkbox sets the AI toggle. |
| CheckerPage.CheckerPageState.StartAnalyze | apps/web/app/checker/page.tsx:22-38 | Without a file nothing happens. With one, loading starts and the request goes to the chosen URL with the file. |
| CheckerPage.CheckerPageState.FinishAnalyze | apps/web/app/checker/page.tsx:40-48 | Loading always ends. An ok response sets the result to its body; a non-ok response or a thrown error alerts and keeps the old result. |
| CheckerPage.CheckerPageState.HandleAnalyze | apps/web/app/checker/page.tsx:22-50 | The whole handler: a no-op without a file; otherwise loading is false afterwards whatever the outcome, and the result changes only on an ok response. |
| HomePage.IndexOf | apps/web/app/page.tsx:13 | `indexOf` gives the first position of the locale, and -1 exactly when it is absent. |
| HomePage.Cycle | apps/web/app/page.tsx:12-15 | The next locale is always one of "es", "en", "ru". |
| HomePage.CycleSteps | apps/web/app/page.tsx:12-15 | The cycle goes es → en → ru → es. |
| HomePage.CycleThrice | apps/web/app/page.tsx:12-14 | Three cycles from a locale in the order return to it. |
| HomePage.CycleUnknown | apps/web/app/page.tsx:13-14 | A locale outside the order cycles to "es". |
| HomePage.CycleReachesLocaleWithoutTable | apps/web/app/page.tsx:12-15 | Two cycles from the default locale reach "ru", which has no string table. |
| HomePage.CycleLanguage | apps/web/app/page.tsx:11-16 | The provider's locale becomes the cycle of the old one. |
| LanguageProvider.TablesAgreeOnKeys | apps/web/components/language-provider.tsx:15-40 | There are tables for "en" and "es" only, and both define the same ten keys. |
| LanguageProvider.EnglishKeys | apps/web/components/language-provider.tsx:16-27 | The English table defines exactly the ten keys. |
| LanguageProvider.SpanishKeys | apps/web/components/language-provider.tsx:28-39 | The Spanish table defines exactly the ten keys. |
| LanguageProvider.Translate | apps/web/components/language-provider.tsx:45-47 | `t` as written returns the current table's text for a key it has and the key itself for a key it lacks. It raises for a locale without a table. |
| LanguageProvider.TranslateWithFallback | apps/web/components/language-provider.tsx:46 | The corrected lookup equals `t` as written for every locale that has a table. |
| LanguageProvider.TranslateWithFallbackSpec | apps/web/components/language-provider.tsx:46 | The corrected lookup agrees with `t` wherever `t` succeeds. It gives the English text for a locale without a table, and it falls back to the key for unknown keys. |
| LanguageProvider.UseLanguage | apps/web/components/language-provider.tsx:56-62 | Outside a provider it fails with "useLanguage must be used within a LanguageProvider"; inside it returns the context. |
| LanguageProvider.Provider.constructor | apps/web/components/language-provider.tsx:43 | The initial locale is "es". |
| LanguageProvider.Provider.SetLocale | apps/web/components/language-provider.tsx:43 | `setLocale` replaces the locale. |
| LanguageProvider.Provider.Context | apps/web/components/language-provider.tsx:50 | The context handed to children carries the current locale. |
| LanguageProvider.Provider.T | apps/web/components/language-provider.tsx:45-47 | The provider's `t` gives the current table's text for a key it has and the key itself otherwise. With a locale that has no table, it raises. |
| LanguageProvider.Provider.TWithFallback | apps/web/components/language-provider.tsx:46 | The corrected `t` agrees with `T` wherever `T` succeeds, gives the English text for a locale without a table, and gives the key for an unknown key. |
| LanguageSelector.Find | apps/web/components/language-selector.tsx:30 | `find` returns the first entry with the code, and nothing exactly when no entry has it. |
| LanguageSelector.CurrentLang | apps/web/components/language-selector.tsx:30 | The current language is the entry for the locale when one exists, and otherwise the first entry, Español. |
| LanguageSelector.AtMostOneCurrent | apps/web/components/language-selector.tsx:9-11 | The codes are distinct, so at most one menu entry is marked as current. |
| LanguageSelector.RussianHasNoTable | apps/web/components/language-selector.tsx:11 | The menu offers "ru", for which `t` as written raises. The corrected lookup gives the English text. |
| LanguageSelector.Selector.constructor | apps/web/components/language-selector.tsx:16 | The menu starts closed. |
| LanguageSelector.Selector.Toggle | apps/web/components/language-selector.tsx:37 | The button flips `isOpen`. |
| LanguageSelector.Selector.Select | apps/web/components/language-selector.tsx:50-53 | Choosing a language sets the locale to its code and closes the menu. |
| LanguageSelector.Selector.MouseDown | apps/web/components/language-selector.tsx:21-25 | A mouse press outside the mounted menu closes it; any other press leaves `isOpen` as it was. |

## Left out

- PDF text extraction (`_extract_text`, PyMuPDF) and the `pdf_path` field: the analyzer is built from the extracted text.
- PyStrings.Lower: lower-cases ASCII and the Latin-1 capitals only. Python lower-cases every script (for example U+212A KELVIN SIGN becomes 'k'), and some characters change the length: "İ" (U+0130) becomes two code points. All the keywords are Latin-1, but a text in another script is not lower-cased as Python does it.
- AtsChecker.Analyzer.Analyze: Python returns the very list object held in `sections_found`, so a later `analyze` also changes an earlier report. The model returns a copy.
- The API routes, CORS, temporary files and error mapping around the analyzer and the AI service are not part of this model. The same holds for PDF generation, the test scripts, and the pricing and login pages.
- `genai.configure`, the warning printed without a key, and the Gemini call itself: the generator is a parameter, and it returns text or raises with a message.
- AiService.AIService.AnalyzeCv: the error dictionary carries the message of `str(e)` without modelling how Python formats an exception.
- Dashboard.DashboardPage.LoadOnMount: the parser accepts the object `JSON.stringify` writes for the eight-field record, with the eight keys in order and no spacing, plus the other JSON string escapes inside it (`\/`, upper-case hex digits, `\u` escapes of any non-surrogate character). `JSON.parse` also accepts other spacing, key orders and shapes, and it lets those replace the profile. The model reports them as `ParseFailed`.
- ProfileJson.Stringify: lone surrogate code points are outside the model's character type, so their `\uDXXX` escapes are not modelled.
- The 2-second `setTimeout` that clears `isSaved`, `alert` apart from the fact that one is shown, `console.error`, router navigation and all rendering.
- LocalStorage.Storage.SetItem: the store is total. A browser's `setItem` can throw (quota exceeded, storage disabled). `handleSave` does not catch that, so `isSaved` would stay false, and the model does not represent it.
- CheckerPage.CheckerPageState.FinishAnalyze: an ok response whose JSON body is not an object is not represented. `setResult` stores whatever `res.json()` gives, so a `null` body would clear the result; `Option<AnalysisResult>` has no such value.
- The 5 MB upload limit: no code enforces it, so there is nothing to model.
- `FormData` and `fetch`: the network is an outcome parameter. The second await (`res.json()`) is folded into that outcome's body, so no event can come between the two awaits, and no other interleaving is modelled either.
- LanguageProvider.Translate: keys that name JavaScript object-prototype members (such as "constructor") are treated as missing keys.
- The registration and removal of the document mousedown listener: `MouseDown` models the handler only.

## Findings

| source | as written | input that shows it | evidently intended | confidence | as-written member | corrected member |
|---|---|---|---|---|---|---|
| apps/web/components/language-provider.tsx:46 | `t` indexes `translations[locale]`, but only "en" and "es" have tables, while the home-page cycle and the selector both set "ru". | Locale "ru" (choose Русский, or cycle twice from "es"), then any `t(key)`: `translations.ru` is undefined and the lookup raises a TypeError. | A locale without a table reads the English table, as the pricing and login pages do with `table[locale] \|\| table.en`. | not executed | LanguageSelector.RussianHasNoTable | LanguageProvider.Provider.TWithFallback |
