# Vietnamese legal chatbot — decision logic in Dafny

This project models the deterministic core of the Vietnamese legal chatbot service:

- **Query text processing.** The Vietnamese normaliser, the tokenizer, the legal-term extractor and the query preprocessor. The latter covers intents, search keywords, constraints and the error fallback.
- **Chat sessions.** The in-memory store with its two-hour expiry, message appends, the conversation window, the statistics and the dictionary round trip.
- **Legal analysis.** The rule-based classifier, the applicable laws, the reasoning text, the recommendations, the warnings and the error result.
- **Document processing.** The processor's extension dispatch, its metadata update, text normalisation and structure extraction, and the upload handler's validation.
- **Batch upload.** The uploader's batching, counters and ordered detection tables.
- **API helpers.** Domain auto-detection, request validation and the default-domain override, the canned response and the preview.
- **Web search.** The accumulation loop, with per-query caps, early exit and ids.
- **Embedding models.** The model table, and selection of the first model the API accepts.
- **API keys.** The key-validity rules and the key manager.
- **Legal domains.** The domain registry and comma-list parsing.
- **Demo configuration.** Its defaults, overrides and key issues.
- **System check.** The check script's version comparison, env-value masking and aggregation.

Everything the service delegates elsewhere is a parameter of the model:

- the language model, retrieval, vector search, web search and embedding-access tests;
- the regex scanners for references, amounts, dates and chapters;
- file reading and directory globbing;
- the environment (`os.getenv`), the clock, ids and the interpreter version.

Each source file becomes one module. Pure code is written as functions with lemmas. Code that mutates state or loops is written as classes and methods, and each method is proved against a specification function. Shared helpers are in `wrappers.dfy` (`Option`, `Result`), `strings.dfy` (Python string operations), `env.dfy` (environment lookups and Python `or`), `rules.dfy` (ordered first-match keyword tables) and `normalization.dfy` (the regex rewrites and the text shapes they leave).

## Model

| member | source | states |
|---|---|---|
| Rules.FirstHit | vietnamese_legal_chatbot/app/utils/text_processing.py:435-448 | The rule chosen by an ordered keyword table is the first whose keyword occurs; every earlier rule has no keyword that occurs. |
| Rules.FirstMatchWitness | vietnamese_legal_chatbot/app/services/legal_analyzer.py:115-130 | A first-match result is the default or the outcome of a hitting rule preceded only by rules that miss. |
| Rules.FirstMatch | vietnamese_legal_chatbot/app/utils/text_processing.py:435-448 | The outcome of the first rule with a keyword in one of the texts, every earlier rule missing; the default iff no rule hits. |
| Strings.JoinContains | vietnamese_legal_chatbot/app/services/serp_service.py:107-125 | Every piece of a joined template occurs in the joined text. |
| Normalization.CollapseSpaces | vietnamese_legal_chatbot/app/utils/text_processing.py:85 | Collapsing whitespace runs to one space never lengthens the text, empties only the empty text, and keeps whether the text starts or ends with whitespace. |
| Normalization.CollapseSpacesCollapsed | vietnamese_legal_chatbot/app/utils/text_processing.py:85 | After collapsing, the only whitespace is `' '` and no two whitespace characters are adjacent. |
| Normalization.CollapseKeepsText | vietnamese_legal_chatbot/app/utils/text_processing.py:85 | Collapsing whitespace keeps every non-whitespace character in order. |
| Normalization.StripSingleSpaced | vietnamese_legal_chatbot/app/utils/text_processing.py:86 | Stripping collapsed text leaves it single-spaced, with no whitespace at either end. |
| Normalization.DedupMarksNoAdjacent | vietnamese_legal_chatbot/app/utils/text_processing.py:89 | After the terminal-mark rewrite, no `.`, `!` or `?` is directly followed by another. |
| Normalization.DedupMarksCollapsed | vietnamese_legal_chatbot/app/utils/text_processing.py:89 | The terminal-mark rewrite keeps collapsed text collapsed. |
| Normalization.DedupMarks | vietnamese_legal_chatbot/app/utils/text_processing.py:89 | The terminal-mark rewrite never makes the text longer, keeps its first character, and does not leave text that ended in a non-whitespace character ending in whitespace. |
| Normalization.SingleSpacedReplace | vietnamese_legal_chatbot/app/utils/text_processing.py:190-212 | Replacing a key by a solid value, plainly or as a whole word, keeps text single-spaced. |
| Normalization.ReplaceNoAdjacentMarks | vietnamese_legal_chatbot/app/utils/text_processing.py:190-212 | Replacing a key by a solid value keeps terminal marks non-adjacent. |
| Normalization.ReplaceAbsent | vietnamese_legal_chatbot/app/utils/text_processing.py:190-212 | Text that does not contain the key is left unchanged. |
| Normalization.WordFollowedIsKept | vietnamese_legal_chatbot/app/utils/text_processing.py:209-211 | A whole-word key followed by a word character is not replaced at that position. |
| TextProcessing.ApplyTableKeepsShape | vietnamese_legal_chatbot/app/utils/text_processing.py:190-212 | Applying a replacement table whose values are solid keeps text single-spaced and terminal marks non-adjacent. |
| TextProcessing.TablesWellFormed | vietnamese_legal_chatbot/app/utils/text_processing.py:190-205 | Every key of the term and abbreviation tables is non-empty, and every value is solid text. |
| TextProcessing.NormalizeLegalTerms | vietnamese_legal_chatbot/app/utils/text_processing.py:190-205 | The loop applies the six code-name rewrites in table order with `str.replace`. It keeps the text's shape. |
| TextProcessing.ExpandAbbreviations | vietnamese_legal_chatbot/app/utils/text_processing.py:207-212 | The loop expands the abbreviations in table order, each only as a whole word. It keeps the text's shape. |
| TextProcessing.NormalizeVietnameseText | vietnamese_legal_chatbot/app/utils/text_processing.py:78-105 | The normalised text is single-spaced, with no whitespace at either end, and no terminal mark follows another. |
| TextProcessing.CivilCodeCapitalised | vietnamese_legal_chatbot/app/utils/text_processing.py:190-205 | The lower-case civil-code name is rewritten to its capitalised form. |
| TextProcessing.RewriteValuesAreNotKeys | vietnamese_legal_chatbot/app/utils/text_processing.py:190-205 | No rewrite value is itself a rewrite key. |
| TextProcessing.ApplyTableFixed | vietnamese_legal_chatbot/app/utils/text_processing.py:190-205 | A text that no single table entry changes is unchanged by the whole table. |
| TextProcessing.ApplyTableConcat | vietnamese_legal_chatbot/app/utils/text_processing.py:202-204 | Applying a table is applying its entries one after another. |
| TextProcessing.AbbreviationInsideWordKept | vietnamese_legal_chatbot/app/utils/text_processing.py:207-212 | `TTX` is left unchanged: `TT` inside a longer word is not expanded. |
| TextProcessing.DropNonWordStart | vietnamese_legal_chatbot/app/utils/text_processing.py:214-223 | The stripped token is a suffix whose first character is a word character, and every dropped character is a non-word character. |
| TextProcessing.DropNonWordEnd | vietnamese_legal_chatbot/app/utils/text_processing.py:214-223 | The stripped token is a prefix whose last character is a word character, and every dropped character is a non-word character. |
| TextProcessing.CleanTokenShape | vietnamese_legal_chatbot/app/utils/text_processing.py:214-223 | A cleaned token is empty, or has at least two characters and word characters at both ends. It is a slice of the token with only non-word characters around it. |
| TextProcessing.CleanTokenOfCore | vietnamese_legal_chatbot/app/utils/text_processing.py:214-223 | A word core wrapped in non-word characters cleans to the core, or to empty when the core is shorter than 2. |
| TextProcessing.KeptTokens | vietnamese_legal_chatbot/app/utils/text_processing.py:107-128 | Every kept token has length at least 2 and word characters at both ends, and its lower-case form is not a stop word. |
| TextProcessing.Tokenize | vietnamese_legal_chatbot/app/utils/text_processing.py:107-128 | Tokenizing cleans the whitespace-separated words in order and keeps only the non-empty tokens that are not stop words. |
| TextProcessing.FilterTokens | vietnamese_legal_chatbot/app/utils/text_processing.py:118-122 | The filtering loop computes exactly the kept-token list. |
| TextProcessing.FoundTerms | vietnamese_legal_chatbot/app/utils/text_processing.py:133-139 | A term is found iff it is in the dictionary and its lower-case form occurs in the lower-cased text. |
| TextProcessing.FindTerms | vietnamese_legal_chatbot/app/utils/text_processing.py:136-139 | The loop collects exactly the found dictionary terms, in dictionary order. |
| TextProcessing.Dedup | vietnamese_legal_chatbot/app/utils/text_processing.py:145-153 | De-duplication leaves no duplicates and keeps exactly the same elements. |
| TextProcessing.DedupConcat | vietnamese_legal_chatbot/app/utils/text_processing.py:145-153 | De-duplicating `a + b` gives the de-duplicated `a`, then the new elements of `b` in their first-occurrence order. |
| TextProcessing.DedupDistinct | vietnamese_legal_chatbot/app/utils/text_processing.py:145-153 | A list without duplicates is unchanged by de-duplication. |
| TextProcessing.Unique | vietnamese_legal_chatbot/app/utils/text_processing.py:145-153 | The loop with a `seen` set keeps the first occurrence of each element, in order. |
| TextProcessing.ExtractLegalTerms | vietnamese_legal_chatbot/app/utils/text_processing.py:130-157 | The result has no duplicates. Dictionary terms come first, in dictionary order, and each occurs in the lower-cased text. New regex references follow. The result contains exactly the found terms and the references. |
| TextProcessing.Occurring | vietnamese_legal_chatbot/app/utils/text_processing.py:314-331 | A procedure keyword is reported iff it occurs in the lower-cased text. |
| TextProcessing.ExtractProcedures | vietnamese_legal_chatbot/app/utils/text_processing.py:314-331 | One `legal_procedure` entity is produced per occurring keyword, in keyword order. |
| TextProcessing.FindProcedures | vietnamese_legal_chatbot/app/utils/text_processing.py:318-331 | The loop produces one procedure entity per occurring keyword, in keyword order. |
| TextProcessing.LegalEntitiesShape | vietnamese_legal_chatbot/app/utils/text_processing.py:159-188 | The entities are the documents, amounts and dates, then the procedures. Every entity except a procedure has a `value` field, and the procedures are exactly the trailing ones. |
| TextProcessing.ExtractLegalEntities | vietnamese_legal_chatbot/app/utils/text_processing.py:159-188 | The entity list is the scanner's matches followed by the procedure entities. |
| TextProcessing.ProcessLegalText | vietnamese_legal_chatbot/app/utils/text_processing.py:39-76 | The analysis holds the normalised text (single-spaced, no adjacent marks), its tokens, its de-duplicated legal terms and its entities. |
| TextProcessing.ProcedureIntentWins | vietnamese_legal_chatbot/app/utils/text_processing.py:435-448 | A query containing `thủ tục` is a `procedure_inquiry`, even if it also contains `quyền`. |
| TextProcessing.RightsIntent | vietnamese_legal_chatbot/app/utils/text_processing.py:435-448 | A query with no procedure keyword that contains `quyền` is a `rights_inquiry`. |
| TextProcessing.DefaultIntentIff | vietnamese_legal_chatbot/app/utils/text_processing.py:435-448 | The intent is `information_inquiry` iff no intent rule's keyword occurs. |
| TextProcessing.QueryIntent | vietnamese_legal_chatbot/app/utils/text_processing.py:435-448 | The intent is the outcome of the first intent rule whose keyword occurs in the lower-cased query, or `information_inquiry` when none does. |
| TextProcessing.LongTokens | vietnamese_legal_chatbot/app/utils/text_processing.py:458 | Exactly the tokens longer than 3 characters are kept. |
| TextProcessing.AtMostTen | vietnamese_legal_chatbot/app/utils/text_processing.py:459 | The first ten tokens, or all of them when there are fewer. |
| TextProcessing.SearchKeywordsAsWritten | vietnamese_legal_chatbot/app/utils/text_processing.py:450-466 | As written, keyword generation fails iff some entity lacks a `value`. Otherwise the keywords have no duplicates and are exactly the legal terms, the first ten long tokens and the entity values. |
| TextProcessing.EntityValuesAsWritten | vietnamese_legal_chatbot/app/utils/text_processing.py:461-464 | Reading `value` fails iff some document or procedure entity lacks a `value` field. |
| TextProcessing.ProcedureEntityBreaksKeywords | vietnamese_legal_chatbot/app/utils/text_processing.py:461-464 | A procedure entity makes keyword generation as written fail. |
| TextProcessing.KeywordsFailIff | vietnamese_legal_chatbot/app/utils/text_processing.py:325-329 | As written, keyword generation fails iff some procedure keyword occurs in the text. |
| TextProcessing.Terms | vietnamese_legal_chatbot/app/utils/text_processing.py:461-464 | The entity terms are exactly the values the term function yields over the entities. |
| TextProcessing.AppendTerms | vietnamese_legal_chatbot/app/utils/text_processing.py:461-464 | The loop appends the entity terms in entity order. |
| TextProcessing.GenerateSearchKeywords | vietnamese_legal_chatbot/app/utils/text_processing.py:450-466 | The keywords have no duplicates. They are exactly the legal terms, the first ten long tokens and the document and procedure terms. |
| TextProcessing.ProcedureKeywordsSearched | vietnamese_legal_chatbot/app/utils/text_processing.py:450-466 | In the corrected generator, every procedure keyword that occurs becomes a search term. |
| TextProcessing.OfKind | vietnamese_legal_chatbot/app/utils/text_processing.py:472-480 | Exactly the entities of the given kind are selected. |
| TextProcessing.FindDomain | vietnamese_legal_chatbot/app/utils/text_processing.py:483-493 | The loop returns the first domain in declared order whose keyword occurs, or none. |
| TextProcessing.QueryConstraints | vietnamese_legal_chatbot/app/utils/text_processing.py:468-495 | `date_range` and `amount_range` are present iff such entities exist and then list them. The domain is the first matching one in declared order. |
| TextProcessing.ExtractQueryConstraints | vietnamese_legal_chatbot/app/utils/text_processing.py:468-495 | The loops over the entities and the domain table compute exactly those constraints. |
| TextProcessing.CivilDomainFirst | vietnamese_legal_chatbot/app/utils/text_processing.py:483-493 | Text containing `dân sự` is in the `dan_su` domain, whatever other domain words it has. |
| TextProcessing.Fallback | vietnamese_legal_chatbot/app/utils/text_processing.py:422-433 | The error fallback has intent `unknown`, the raw query, whitespace-split keywords and nothing else. |
| TextProcessing.PreprocessQuery | vietnamese_legal_chatbot/app/utils/text_processing.py:396-433 | As written, a query mentioning a procedure keyword falls back. Any other query keeps the original text and has its intent, normalised text, de-duplicated legal terms, entities and constraints. Its keywords are duplicate-free and are exactly the legal terms, the first ten long tokens and the entity values. |
| TextProcessing.PreprocessQueryIntended | vietnamese_legal_chatbot/app/utils/text_processing.py:396-433 | In the corrected preprocessor, every query is analysed, with the same fields as above. Its duplicate-free keywords are exactly the legal terms, the first ten long tokens and the entity terms, so every occurring procedure keyword is searched. |
| ChatSessions.ShouldAddDisclaimer | vietnamese_legal_chatbot/app/models/vietnamese_legal_chatbot.py:401-404 | The disclaimer is added iff the intent is a violation, procedure or obligation inquiry. |
| ChatSessions.RecentWindow | vietnamese_legal_chatbot/app/models/vietnamese_legal_chatbot.py:326-327 | `messages[-max:-1]`: it never includes the last message, has at most `max - 1` messages, and has exactly that many when there are enough. |
| ChatSessions.ContextLines | vietnamese_legal_chatbot/app/models/vietnamese_legal_chatbot.py:328-332 | One labelled line per message, in order. |
| ChatSessions.ConversationContext | vietnamese_legal_chatbot/app/models/vietnamese_legal_chatbot.py:321-334 | The context is empty for at most one message; otherwise it is the window's lines joined by newlines. |
| ChatSessions.RenderLines | vietnamese_legal_chatbot/app/models/vietnamese_legal_chatbot.py:328-332 | The loop produces exactly the labelled lines. |
| ChatSessions.LegalChatbot.constructor | vietnamese_legal_chatbot/app/models/vietnamese_legal_chatbot.py:87-125 | The store starts empty and valid. |
| ChatSessions.LegalChatbot.CreateSession | vietnamese_legal_chatbot/app/models/vietnamese_legal_chatbot.py:155-181 | Exactly one fresh key is added. Its session has one assistant greeting, context `legal_domain=None` and `conversation_state='greeting'`, and `last_activity == created_at`. |
| ChatSessions.NewSession | vietnamese_legal_chatbot/app/models/vietnamese_legal_chatbot.py:155-181 | The session has the given id and user, `created_at == last_activity == now`, exactly one assistant greeting, and the context `legal_domain=None`, `conversation_state='greeting'`. |
| ChatSessions.UpdatedContext | vietnamese_legal_chatbot/app/models/vietnamese_legal_chatbot.py:211-214 | The context gains exactly `legal_domain`, `last_intent` and `legal_terms` with the analysis values; every other key keeps its value. |
| ChatSessions.LegalChatbot.GetSession | vietnamese_legal_chatbot/app/models/vietnamese_legal_chatbot.py:183-194 | Unknown ids give None. A session idle for strictly more than two hours is deleted and gives None. Otherwise the session is returned and the store is unchanged. |
| ChatSessions.LegalChatbot.ProcessMessage | vietnamese_legal_chatbot/app/models/vietnamese_legal_chatbot.py:196-261 | A missing or expired session gives the error and appends nothing. On success the user and then the assistant message are appended, the context is updated and `last_activity` is set. If the answer fails after the user message, only that message stays appended. |
| ChatSessions.LegalChatbot.ClearSession | vietnamese_legal_chatbot/app/models/vietnamese_legal_chatbot.py:421-427 | The result is true iff the id was present. Afterwards the id is absent and all other sessions are unchanged. |
| ChatSessions.LegalChatbot.CleanupExpiredSessions | vietnamese_legal_chatbot/app/models/vietnamese_legal_chatbot.py:429-444 | Exactly the expired sessions are removed and counted; the others are untouched. |
| ChatSessions.LegalChatbot.GetChatStatistics | vietnamese_legal_chatbot/app/models/vietnamese_legal_chatbot.py:446-481 | With no sessions the statistics are zeros and None. Otherwise the message total is the sum over sessions, and the most common domain and intent have maximal count. |
| ChatSessions.Tally | vietnamese_legal_chatbot/app/models/vietnamese_legal_chatbot.py:457-469 | The loop over sessions computes the message total and the domain and intent bags. |
| ChatSessions.CollectIntents | vietnamese_legal_chatbot/app/models/vietnamese_legal_chatbot.py:467-469 | The loop collects the truthy intents of a session's messages. |
| ChatSessions.MostCommon | vietnamese_legal_chatbot/app/models/vietnamese_legal_chatbot.py:471-472 | None for an empty bag. Otherwise a member whose count is at least that of every member. |
| ChatSessions.TotalRemove | vietnamese_legal_chatbot/app/models/vietnamese_legal_chatbot.py:457 | The message total is independent of the order sessions are visited in. |
| ChatSessions.GatherRemove | vietnamese_legal_chatbot/app/models/vietnamese_legal_chatbot.py:464-469 | The domain and intent bags are independent of the order sessions are visited in. |
| ChatSessions.MessageRoundTrip | vietnamese_legal_chatbot/app/models/vietnamese_legal_chatbot.py:43-53 | `ChatMessage.from_dict(to_dict(m)) == m`. |
| ChatSessions.MessagesRoundTrip | vietnamese_legal_chatbot/app/models/vietnamese_legal_chatbot.py:65-82 | A message list survives the round trip through dictionaries. |
| ChatSessions.SessionRoundTrip | vietnamese_legal_chatbot/app/models/vietnamese_legal_chatbot.py:65-82 | `ChatSession.from_dict(to_dict(s)) == s`. |
| ChatSessions.IsoRoundTrip | vietnamese_legal_chatbot/app/models/vietnamese_legal_chatbot.py:46 | A timestamp survives `isoformat` and `fromisoformat`. |
| ChatSessions.MessageToDict | vietnamese_legal_chatbot/app/models/vietnamese_legal_chatbot.py:43-47 | A dictionary with exactly the five message fields, the content unchanged, and `metadata` null iff the message has none. |
| ChatSessions.MessageFromDict | vietnamese_legal_chatbot/app/models/vietnamese_legal_chatbot.py:49-53 | Success needs a dictionary with every required field and no unknown one. The message then has its content, and no metadata iff the field is absent or null. |
| ChatSessions.SessionToDict | vietnamese_legal_chatbot/app/models/vietnamese_legal_chatbot.py:65-74 | A dictionary with exactly the six session fields, one dictionary per message, and `context` null iff the session has none. |
| ChatSessions.SessionFromDict | vietnamese_legal_chatbot/app/models/vietnamese_legal_chatbot.py:76-82 | Success needs a dictionary with the five required session fields and no unknown one. The messages are the decoded message list, and the context is None iff the field is absent or null. |
| LegalAnalyzer.RightsClassifiedFirst | vietnamese_legal_chatbot/app/services/legal_analyzer.py:115-130 | A query containing `quyền` is a rights inquiry, whatever else it contains. |
| LegalAnalyzer.ProcedureClassified | vietnamese_legal_chatbot/app/services/legal_analyzer.py:115-130 | A query without rights or obligation words that contains `thủ tục` is a procedure inquiry. |
| LegalAnalyzer.GeneralIff | vietnamese_legal_chatbot/app/services/legal_analyzer.py:115-130 | The type is `general_consultation` iff no rule's keyword occurs. |
| LegalAnalyzer.ClassifyQueryType | vietnamese_legal_chatbot/app/services/legal_analyzer.py:115-130 | The type is that of the first rule whose keyword occurs in the lower-cased query, or `general_consultation` when none does. |
| LegalAnalyzer.ValidTargetKept | vietnamese_legal_chatbot/app/services/legal_analyzer.py:132-136 | A target that is a valid domain value is returned unchanged. |
| LegalAnalyzer.DomainByKeywords | vietnamese_legal_chatbot/app/services/legal_analyzer.py:137-153 | Without a valid target, the domain is the first in declared order with an occurring keyword, and `general` iff there is none. |
| LegalAnalyzer.IdentifyLegalDomain | vietnamese_legal_chatbot/app/services/legal_analyzer.py:132-153 | A valid target domain is returned as given. Otherwise the domain is that of the first rule whose keyword occurs, or `general`. |
| LegalAnalyzer.ExtractLegalEntities | vietnamese_legal_chatbot/app/services/legal_analyzer.py:155-182 | One `monetary_amount` entity per amount match, then one `date` entity per date match. |
| LegalAnalyzer.Excerpt | vietnamese_legal_chatbot/app/services/legal_analyzer.py:200 | The excerpt is the first 200 characters followed by `...`. |
| LegalAnalyzer.LawsOfConcat | vietnamese_legal_chatbot/app/services/legal_analyzer.py:184-204 | The laws of two document lists are the laws of each, in order. |
| LegalAnalyzer.LawsOfOne | vietnamese_legal_chatbot/app/services/legal_analyzer.py:193-202 | A document contributes one law iff its metadata has `law_name`. |
| LegalAnalyzer.FindApplicableLaws | vietnamese_legal_chatbot/app/services/legal_analyzer.py:184-204 | The loop yields one law per document with `law_name`, in input order. |
| LegalAnalyzer.LawSection | vietnamese_legal_chatbot/app/services/legal_analyzer.py:217-221 | The law section is empty iff there are no laws, and it lists at most three. |
| LegalAnalyzer.EntitySection | vietnamese_legal_chatbot/app/services/legal_analyzer.py:223-226 | The entity section is empty iff there are no entities; otherwise it is a heading and one line each. |
| LegalAnalyzer.ReasoningParts | vietnamese_legal_chatbot/app/services/legal_analyzer.py:206-232 | The reasoning starts with the header and the question and ends with point 4. The law and entity sections appear only when non-empty. |
| LegalAnalyzer.AppendLines | vietnamese_legal_chatbot/app/services/legal_analyzer.py:219-225 | The loop appends one rendered line per item. |
| LegalAnalyzer.PerformLegalReasoning | vietnamese_legal_chatbot/app/services/legal_analyzer.py:206-232 | The method's text is the reasoning lines joined by newlines. |
| LegalAnalyzer.GenerateRecommendations | vietnamese_legal_chatbot/app/services/legal_analyzer.py:247-266 | There are 0, 2 or 4 recommendations, and those for `thủ tục` precede those for `hợp đồng`. |
| LegalAnalyzer.IdentifyLegalWarnings | vietnamese_legal_chatbot/app/services/legal_analyzer.py:268-285 | The deadline warning appears iff a deadline word occurs, and the criminal warning iff `hình sự` occurs. |
| LegalAnalyzer.CreateErrorResult | vietnamese_legal_chatbot/app/services/legal_analyzer.py:298-309 | An `error` result with confidence 0.0, empty lists and exactly one warning. |
| LegalAnalyzer.AnalyzeLegalQuery | vietnamese_legal_chatbot/app/services/legal_analyzer.py:61-113 | A failed search gives the error result. Otherwise the result holds the classification, the laws, the reasoning, the one fixed key finding, the recommendations, the warnings and confidence 0.8. |
| DocumentProcessor.LastIndex | vietnamese_legal_chatbot/app/services/document_processor.py:170 | The position of the last occurrence of the character, or -1 when it does not occur. |
| DocumentProcessor.Suffix | vietnamese_legal_chatbot/app/services/document_processor.py:170 | The suffix is empty, or a dot with at least one more character and no dot or slash, ending the name. |
| DocumentProcessor.Stem | vietnamese_legal_chatbot/app/services/document_processor.py:170 | The stem followed by the suffix is the name. |
| DocumentProcessor.SuffixOfAppended | vietnamese_legal_chatbot/app/services/document_processor.py:170 | A name followed by an extension has that extension as its suffix. |
| DocumentProcessor.ProcessorFor | vietnamese_legal_chatbot/app/services/document_processor.py:158-162 | A processor exists iff the extension is `.pdf`, `.docx` or `.doc`. |
| DocumentProcessor.UpperCasePdfAccepted | vietnamese_legal_chatbot/app/services/document_processor.py:170-173 | `.PDF` is accepted, because the extension is lower-cased. |
| DocumentProcessor.TextFilesRejected | vietnamese_legal_chatbot/app/services/document_processor.py:170-173 | A `.txt` file has no processor. |
| DocumentProcessor.ExtractLegalStructure | vietnamese_legal_chatbot/app/services/document_processor.py:230-249 | All five keys are present. Chapters and articles are the matches in order; clauses, points and sections are empty. |
| DocumentProcessor.NormalizeDocText | vietnamese_legal_chatbot/app/services/document_processor.py:251-269 | The output has no whitespace at either end, no whitespace run, and no repeated terminal marks. |
| DocumentProcessor.ProcessedMetadata | vietnamese_legal_chatbot/app/services/document_processor.py:202-206 | The three processing entries are added and every other pre-existing entry is kept. |
| DocumentProcessor.LegalDocumentProcessor.ApplyLegalProcessing | vietnamese_legal_chatbot/app/services/document_processor.py:188-220 | The metadata is updated in place. Chunks become the empty structure chunks when structure preservation is on; nothing else changes. |
| DocumentProcessor.LegalDocumentProcessor.ProcessLegalDocument | vietnamese_legal_chatbot/app/services/document_processor.py:167-186 | An unsupported extension is an error naming it. Otherwise a fresh document of the format's type is returned, with processed metadata and no chunks. |
| DocumentProcessor.ValidateUpload | vietnamese_legal_chatbot/app/services/document_processor.py:311-320 | Every upload is valid. |
| DocumentProcessor.UploadedTextHasNoProcessor | vietnamese_legal_chatbot/app/services/document_processor.py:308 | `.txt` is an allowed upload type and passes validation, yet the processor rejects it. |
| UploadDocuments.ProcessSingleDocument | vietnamese_legal_chatbot/scripts/upload_documents.py:179-184 | The placeholder always reports `uploaded`, with id `doc_<stem>` and 5 chunks. |
| UploadDocuments.Outcome | vietnamese_legal_chatbot/scripts/upload_documents.py:124-133 | An exception while processing a file counts as `failed` and carries its message. |
| UploadDocuments.CountsPartition | vietnamese_legal_chatbot/scripts/upload_documents.py:114-122 | Every file result is counted exactly once as uploaded, failed or skipped. |
| UploadDocuments.BatchFor | vietnamese_legal_chatbot/scripts/upload_documents.py:101-135 | A batch has one result per file, and `uploaded + failed + skipped == files_count`. |
| UploadDocuments.Batches | vietnamese_legal_chatbot/scripts/upload_documents.py:89-90 | Every batch is non-empty and holds at most `batch_size` files. |
| UploadDocuments.BatchesCoverFiles | vietnamese_legal_chatbot/scripts/upload_documents.py:89-90 | The batches concatenate to the file list. |
| UploadDocuments.BatchesFull | vietnamese_legal_chatbot/scripts/upload_documents.py:89-90 | Every batch but the last holds exactly `batch_size` files. |
| UploadDocuments.DocumentUploader.ProcessDocumentBatch | vietnamese_legal_chatbot/scripts/upload_documents.py:101-135 | The counting loop computes exactly the batch result. |
| UploadDocuments.DocumentUploader.ProcessBatches | vietnamese_legal_chatbot/scripts/upload_documents.py:89-96 | Batches are numbered from 1 over consecutive slices. The totals are the sums of the batch counts, and together they count every file. |
| UploadDocuments.DocumentUploader.UploadDocumentsFromDirectory | vietnamese_legal_chatbot/scripts/upload_documents.py:47-99 | A missing directory is an error raised before any batch. The default extensions are `.pdf`, `.docx`, `.txt` and `.md`. `total_files` is the number of files found, and the totals are the batch sums. |
| UploadDocuments.CollectFiles | vietnamese_legal_chatbot/scripts/upload_documents.py:72-76 | The loop gathers the files of every extension in order. |
| UploadDocuments.DetectedDomainWitness | vietnamese_legal_chatbot/scripts/upload_documents.py:237-257 | The domain is `khac` or the first in declared order with a keyword in the lower-cased name or content; it is never None. |
| UploadDocuments.DetectLegalDomain | vietnamese_legal_chatbot/scripts/upload_documents.py:237-257 | The domain is that of the first rule with a keyword in the lower-cased file name or content, or `khac` when none hits. |
| UploadDocuments.CivilFileName | vietnamese_legal_chatbot/scripts/upload_documents.py:237-257 | A file name containing `civil` is in the civil domain. |
| UploadDocuments.CodeBeforeLaw | vietnamese_legal_chatbot/scripts/upload_documents.py:259-274 | Content containing `bộ luật` is `bo_luat`, although it also matches the `luật` rule. |
| UploadDocuments.DocumentTypeDefault | vietnamese_legal_chatbot/scripts/upload_documents.py:259-274 | The type is `tai_lieu_khac` iff no rule matches. |
| UploadDocuments.DetectDocumentType | vietnamese_legal_chatbot/scripts/upload_documents.py:259-274 | The type is that of the first rule whose keyword occurs in the lower-cased content, or `tai_lieu_khac` when none does. |
| UploadDocuments.ReadDocument | vietnamese_legal_chatbot/scripts/upload_documents.py:194-213 | Only `.txt` and `.md` files yield text (PDF and Word reading are empty stubs). |
| UploadDocuments.DocumentUploader.constructor | vietnamese_legal_chatbot/scripts/upload_documents.py:38-45 | The counters start at zero. |
| UploadDocuments.DocumentUploader.UploadSingleDocument | vietnamese_legal_chatbot/scripts/upload_documents.py:276-283 | A missing file is an error; otherwise the placeholder result is returned. |
| UploadDocuments.DocumentUploader.GetUploadStatistics | vietnamese_legal_chatbot/scripts/upload_documents.py:285-291 | The statistics report the run counters, which no upload updates. |
| UploadDocuments.PlaceholderUploadsAll | vietnamese_legal_chatbot/scripts/upload_documents.py:179-184 | With the placeholder, every file of a batch is uploaded and none fails or is skipped. |
| Api.FirstDomainHit | vietnamese_legal_chatbot/app/main.py:359-368 | The nested loop with early return finds the first domain in declared order with an occurring keyword. |
| Api.AutoDetectLegalDomain | vietnamese_legal_chatbot/app/main.py:359-368 | The detected domain is the first rule hit on the lower-cased question, and is always a known domain. |
| Api.NothingDetectedIff | vietnamese_legal_chatbot/app/main.py:359-368 | Nothing is detected iff no domain keyword occurs. |
| Api.DivorceIsFamily | vietnamese_legal_chatbot/app/main.py:94-125 | A question with `ly hôn` and no keyword of an earlier domain maps to `gia_dinh`. |
| Api.SaleIsCriminal | vietnamese_legal_chatbot/app/main.py:104 | A question without a civil keyword that contains `bán` maps to `hinh_su`, because `án` is a criminal keyword. |
| Api.EffectiveDomain | vietnamese_legal_chatbot/app/main.py:206-208 | The domain changes only when detection succeeds and the request uses the default `dan_su`; then it becomes the detected domain. |
| Api.ExplicitDomainKept | vietnamese_legal_chatbot/app/main.py:206-208 | A non-default requested domain is never overridden. |
| Api.EffectiveDomainKnown | vietnamese_legal_chatbot/app/main.py:206-208 | A known requested domain stays a known domain after the override. |
| Api.InternalError | vietnamese_legal_chatbot/app/main.py:216-218 | Any error raised inside the handler becomes a 500. |
| Api.LegalQuery.constructor | vietnamese_legal_chatbot/app/main.py:22-28 | The query holds the question, domain and region, with no user or session id. |
| Api.ProcessLegalQuery | vietnamese_legal_chatbot/app/main.py:182-218 | An unknown domain or region is a 400 that reaches the caller as a 500. Otherwise the domain is overridden per the default rule and the canned response is returned. |
| Api.OverrideDomain | vietnamese_legal_chatbot/app/main.py:205-207 | The domain becomes the detected one exactly when the default `dan_su` was requested and a domain was detected; it stays a known domain, and the question and region do not change. |
| Api.GenerateLegalResponse | vietnamese_legal_chatbot/app/main.py:370-425 | Confidence 0.85, the query's domain, exactly the two warnings, and one citation titled with the domain's primary law. |
| Api.ResponseMentions | vietnamese_legal_chatbot/app/main.py:377-402 | The canned response quotes the question and names the domain's primary law and the region. |
| Api.Truncate | vietnamese_legal_chatbot/app/main.py:430-431 | A preview of at most 200 characters is unchanged; a longer one is cut to 200 characters plus `...`. |
| Api.ExtractTextPreview | vietnamese_legal_chatbot/app/main.py:427-431 | The preview never exceeds 203 characters. |
| Api.UploadLegalDocument | vietnamese_legal_chatbot/app/main.py:220-274 | An upload succeeds iff its type is allowed, it is at most 10 MB and saving succeeds; every failure is a 500. |
| SerpService.Queries | vietnamese_legal_chatbot/app/services/serp_service.py:45-51 | Exactly five query templates, in fixed order. |
| SerpService.MakeDoc | vietnamese_legal_chatbot/app/services/serp_service.py:74-86 | Every document has relevance 0.8, its template as search query, and the id built from the position and the running count. |
| SerpService.ContentMentions | vietnamese_legal_chatbot/app/services/serp_service.py:107-125 | A result's formatted content contains its link, title and snippet, and the question. |
| SerpService.DocIdsDistinct | vietnamese_legal_chatbot/app/services/serp_service.py:75 | Ids with different running counts are different. |
| SerpService.Part | vietnamese_legal_chatbot/app/services/serp_service.py:60-73 | A query contributes at most its first two results; a failing query contributes none. |
| SerpService.GatherIsPrefix | vietnamese_legal_chatbot/app/services/serp_service.py:55-97 | The accumulation with its inner and outer breaks takes exactly the first `max_results` candidates, over the templates in order. |
| SerpService.AddUpToIsPrefix | vietnamese_legal_chatbot/app/services/serp_service.py:73-90 | The inner loop with its break adds a prefix of the candidates up to the limit. |
| SerpService.GatherNonPositive | vietnamese_legal_chatbot/app/services/serp_service.py:89-97 | With a limit of zero or less, the breaks fire after the first document, so at most one is gathered. |
| SerpService.PyPrefix | vietnamese_legal_chatbot/app/services/serp_service.py:100 | Python's `[:n]`, including negative `n`. |
| SerpService.DocsOfSnoc | vietnamese_legal_chatbot/app/services/serp_service.py:74-87 | Appending a candidate appends its document, numbered by the current count. |
| SerpService.SerpApiService.constructor | vietnamese_legal_chatbot/app/services/serp_service.py:16-24 | The service is available iff the key is non-empty and not `demo-serp-key`. |
| SerpService.SerpApiService.SearchLegalDocuments | vietnamese_legal_chatbot/app/services/serp_service.py:26-105 | An unavailable service returns `[]` without querying. Otherwise the result is the documents of the accumulated candidates, cut to `max_results`. |
| SerpService.SerpApiService.AddDocs | vietnamese_legal_chatbot/app/services/serp_service.py:73-90 | The inner loop appends the documents of the candidates it takes. |
| SerpService.SerpApiService.GetSearchSuggestions | vietnamese_legal_chatbot/app/services/serp_service.py:127-144 | Exactly 5 suggestions: the question, a space and each of the first five terms, in order. |
| SerpService.SearchTakesFirstCandidates | vietnamese_legal_chatbot/app/services/serp_service.py:26-105 | For a positive limit, the search returns the documents of the first `max_results` candidates, at most `max_results` of them; a failing query is skipped and later ones still run. |
| SerpService.SearchNonPositiveLimit | vietnamese_legal_chatbot/app/services/serp_service.py:89-100 | With a limit of zero or less, the search returns nothing: the final slice drops every gathered document. |
| SerpService.DocIdsUnique | vietnamese_legal_chatbot/app/services/serp_service.py:75 | The documents of one search have pairwise distinct ids. |
| EmbeddingConfig.NewModelConfig | vietnamese_legal_chatbot/app/utils/embedding_config.py:26-28 | A missing language list becomes `["english", "vietnamese"]`; a given list is kept. |
| EmbeddingConfig.SupportedModelsWellFormed | vietnamese_legal_chatbot/app/utils/embedding_config.py:35-63 | The table holds exactly the three models, each filed under its own id and supporting English and Vietnamese, and every priority model is in it. |
| EmbeddingConfig.EmbeddingModelManager.constructor | vietnamese_legal_chatbot/app/utils/embedding_config.py:65-68 | The key is the given key, falling back to `OPENAI_EMBEDDING_API_KEY` and then `OPENAI_API_KEY`. The current and preferred model is ada-002. |
| EmbeddingConfig.EmbeddingModelManager.GetModelConfig | vietnamese_legal_chatbot/app/utils/embedding_config.py:70-72 | The config of a supported model, and None for any other id. |
| EmbeddingConfig.EmbeddingModelManager.ListAvailableModels | vietnamese_legal_chatbot/app/utils/embedding_config.py:74-76 | A copy of the table, with the same keys and configs. |
| EmbeddingConfig.EmbeddingModelManager.AutoSelectModel | vietnamese_legal_chatbot/app/utils/embedding_config.py:78-99 | With no key or a `demo-` key, ada-002 without testing. Otherwise the first accessible model in priority order, else ada-002. The result is always supported. |
| EmbeddingConfig.EmbeddingModelManager.GetRecommendedModel | vietnamese_legal_chatbot/app/utils/embedding_config.py:131-140 | High quality, cost-effective and balanced map to fixed models, and everything else to the preferred model. |
| EmbeddingConfig.HighQualityHasLargestDimension | vietnamese_legal_chatbot/app/utils/embedding_config.py:35-63 | The high-quality recommendation has the largest dimension of the supported models. |
| ApiKeys.IsValidKey | vietnamese_legal_chatbot/app/utils/api_key_manager.py:73-79 | A valid key is non-empty, does not start with `demo-`, is not `test-key`, and is longer than 10 after stripping. |
| ApiKeys.ShortKeyInvalid | vietnamese_legal_chatbot/app/utils/api_key_manager.py:78-79 | A key of at most 10 characters after stripping is invalid. |
| ApiKeys.MissingKeys | vietnamese_legal_chatbot/app/utils/api_key_manager.py:81-94 | Exactly the invalid keys are listed, in the order chat, embedding, pinecone. The list is empty iff all three are valid. |
| ApiKeys.ApiKeyManager.constructor | vietnamese_legal_chatbot/app/utils/api_key_manager.py:16-20 | The keys are loaded from the environment. |
| ApiKeys.ApiKeyManager.LoadKeys | vietnamese_legal_chatbot/app/utils/api_key_manager.py:22-36 | The chat key falls back from `OPENAI_API_KEY` to `OPENAI_CHAT_API_KEY`. The embedding key falls back from `OPENAI_EMBEDDING_API_KEY` to `OPENAI_API_KEY`. |
| ApiKeys.ApiKeyManager.ValidateKeys | vietnamese_legal_chatbot/app/utils/api_key_manager.py:62-71 | It reports all-valid iff all three keys are valid, with each key's validity. |
| ApiKeys.ApiKeyManager.GetMissingKeys | vietnamese_legal_chatbot/app/utils/api_key_manager.py:81-94 | The missing keys; empty iff validate reports all-valid. |
| ApiKeys.ApiKeyManager.SetDemoMode | vietnamese_legal_chatbot/app/utils/api_key_manager.py:96-101 | The demo keys are set, and all three are then reported missing. |
| ApiKeys.DemoKeysInvalid | vietnamese_legal_chatbot/app/utils/api_key_manager.py:96-101 | None of the demo keys is valid. |
| ApiKeys.SetupProductionKeys | vietnamese_legal_chatbot/app/utils/api_key_manager.py:124-134 | Setup fails iff some key is invalid, with the missing keys listed in the message. |
| ApiKeys.SetupDemoKeys | vietnamese_legal_chatbot/app/utils/api_key_manager.py:137-142 | The manager is switched to demo mode and returned; its keys then fail validation. |
| Config.LegalDomainsList | vietnamese_legal_chatbot/app/utils/config.py:82-87 | Splitting on commas and stripping gives one element per comma plus one, each the stripped part. |
| Config.DefaultDomainsParse | vietnamese_legal_chatbot/app/utils/config.py:55-58 | The default domain string parses to exactly the registry's codes, in order. |
| Config.StripAllPlain | vietnamese_legal_chatbot/app/utils/config.py:85-87 | Stripping leaves identifier-like parts unchanged. |
| Config.GetAllDomains | vietnamese_legal_chatbot/app/utils/config.py:144-147 | A code is listed iff it is in the mapping, and none is listed twice. |
| Config.GetDomainName | vietnamese_legal_chatbot/app/utils/config.py:136-142 | `name_en` for `english`, `name` otherwise, and the code itself for an unknown code. |
| Config.IsValidDomain | vietnamese_legal_chatbot/app/utils/config.py:149-152 | A code is valid iff it is among all domains. |
| DemoConfig.DefaultRegionListed | vietnamese_legal_chatbot/app/utils/demo_config.py:54 | The default region `south` is among the default regions. |
| DemoConfig.DemoSettings.constructor | vietnamese_legal_chatbot/app/utils/demo_config.py:14-74 | The fields take their environment defaults. The regions and the hierarchy are filled only when they are None. |
| DemoConfig.GetDemoConfig | vietnamese_legal_chatbot/app/utils/demo_config.py:81-94 | Each field is replaced only when its environment variable is set. |
| DemoConfig.KeyIssues | vietnamese_legal_chatbot/app/utils/demo_config.py:97-112 | There is an issue for a key iff it is empty or its demo sentinel, in the order chat, embedding, pinecone. |
| DemoConfig.ValidateApiKeys | vietnamese_legal_chatbot/app/utils/demo_config.py:97-112 | The issues of the configured keys. |
| DemoConfig.EmptyEnvironmentReportsAll | vietnamese_legal_chatbot/app/utils/demo_config.py:19-32 | With none of the key variables set in either environment, the demo sentinels remain and all three keys are reported. |
| DemoConfig.ChatKeyFallsBack | vietnamese_legal_chatbot/app/utils/demo_config.py:84 | Without `OPENAI_CHAT_API_KEY`, the chat key keeps the `OPENAI_API_KEY` value read when the class was defined. |
| CheckSystem.ListCompare | vietnamese_legal_chatbot/check_system.py:377-382 | Python list comparison gives -1, 0 or 1, and 0 iff the lists are equal. |
| CheckSystem.ListCompareAntisymmetric | vietnamese_legal_chatbot/check_system.py:377-382 | Swapping the lists negates the comparison. |
| CheckSystem.ListCompareTransitive | vietnamese_legal_chatbot/check_system.py:377-382 | List order is transitive. |
| CheckSystem.NumericPartsSnoc | vietnamese_legal_chatbot/check_system.py:366-367 | Normalising is component by component: an added part adds its number, or nothing when it is not all digits. |
| CheckSystem.NormalizeParts | vietnamese_legal_chatbot/check_system.py:366-367 | A version has at most one number per dot plus one. A version without a dot is its number when it is all digits, and nothing otherwise. |
| CheckSystem.VersionCompare | vietnamese_legal_chatbot/check_system.py:364-382 | The comparison is -1, 0 or 1. |
| CheckSystem.CompareVersions | vietnamese_legal_chatbot/check_system.py:364-382 | The padding loop computes the version comparison. |
| CheckSystem.VersionCompareReflexive | vietnamese_legal_chatbot/check_system.py:364-382 | A version compares equal to itself. |
| CheckSystem.VersionCompareAntisymmetric | vietnamese_legal_chatbot/check_system.py:377-382 | `compare(a, b) == -compare(b, a)`. |
| CheckSystem.TrailingZerosIgnored | vietnamese_legal_chatbot/check_system.py:372-375 | Zero components appended to a version do not change any comparison. |
| CheckSystem.AppendedZeroIgnored | vietnamese_legal_chatbot/check_system.py:372-375 | `v` and `v.0` compare equal, so `1.2` equals `1.2.0`. |
| CheckSystem.NonNumericComponentIgnored | vietnamese_legal_chatbot/check_system.py:366-367 | A component that is not all digits is dropped. |
| CheckSystem.ReleaseCandidateExample | vietnamese_legal_chatbot/check_system.py:366-367 | `2.1.0rc1` compares equal to `2.1`. |
| CheckSystem.DisplayValue | vietnamese_legal_chatbot/check_system.py:122-123 | A value longer than 8 shows its first 8 characters plus `...`; any other shows `***`. |
| CheckSystem.Shown | vietnamese_legal_chatbot/check_system.py:116-126 | Exactly the required variables that are set and non-empty are logged, each with its masked value. |
| CheckSystem.VersionTupleOrder | vietnamese_legal_chatbot/check_system.py:41 | `(major, minor, micro) >= (3, 11)` iff the major version is over 3, or it is 3 and the minor is at least 11. |
| CheckSystem.PythonVersionRun | vietnamese_legal_chatbot/check_system.py:36-50 | The version check never raises or warns; it passes iff the version is at least 3.11, and records one error exactly when it fails. |
| CheckSystem.EnvironmentRun | vietnamese_legal_chatbot/check_system.py:106-138 | The environment check never raises or warns; it passes iff every required variable is set and non-empty, and records one error exactly when it fails. |
| CheckSystem.SystemInitializer.constructor | vietnamese_legal_chatbot/check_system.py:30-34 | Requirements start met, with no errors or warnings. |
| CheckSystem.SystemInitializer.CheckPythonVersion | vietnamese_legal_chatbot/check_system.py:36-50 | The check passes iff the version is at least 3.11; a failure appends an error. |
| CheckSystem.SystemInitializer.CheckEnvironmentVariables | vietnamese_legal_chatbot/check_system.py:106-138 | The check passes iff every required variable is set and non-empty. It logs the masked values of the set ones, and a failure appends an error. |
| CheckSystem.SystemInitializer.RunSystemCheck | vietnamese_legal_chatbot/check_system.py:303-335 | The seven checks run in source order. Requirements stay met iff every one returned true without raising. Their errors, each followed by the failure message of a raise, and their warnings accumulate in order. The connectivity check adds only its own errors and warnings and does not affect the verdict. |
| CheckSystem.SystemInitializer.RunChecks | vietnamese_legal_chatbot/check_system.py:318-327 | The loop over any list of checks clears the verdict iff some check failed or raised, and appends their errors and warnings in order. |
| CheckSystem.SystemInitializer.RunCheck | vietnamese_legal_chatbot/check_system.py:318-327 | One check given by its run: a falsy or raising check clears the verdict, and a raise appends its failure message after the check's own errors. |
| CheckSystem.OneFailureFails | vietnamese_legal_chatbot/check_system.py:318-327 | A single falsy or raising check fails the run. |

## Left out

- Unicode NFC (text_processing.py:82) is the identity here: the model has no Unicode normalisation tables.
- The quote-standardisation step (text_processing.py:98-99) is not modelled: its character classes are garbled as written.
- Python `str.lower`, `str.isspace`, `\w` and `\b` are approximated: ASCII, Latin-1 and the Vietnamese letters are covered, other scripts are not.
- `str.isdigit` is restricted to ASCII digits.
- The regex scanners are inputs:
  - references, documents, amounts and dates in text_processing.py;
  - chapters and articles in document_processor.py;
  - amounts and dates in legal_analyzer.py.
- The language confidence (text_processing.py:343-354) and the rounded average in `get_chat_statistics` are floating point and are left out; the statistics give the message total.
- The other floating-point outputs are constants or inputs: relevance and confidence scores are given as `real`, and pricing fields are dropped.
- The language model, retrieval, vector search, web search and embedding-access tests are oracle parameters.
- `test_model_access`, `create_embedding_client` and `compare_models` are not modelled; they are network access or display text.
- The clock, `uuid` and `datetime` are natural numbers: one `now` per call, and ids taken from a counter.
- `ChatSession.from_dict`'s typing is simplified to a small JSON value type.
- `get_session_history` and the prompt texts are not modelled.
- The chat-history and export endpoints of main.py, the health routes and the duplicate stub routes are not modelled.
- Sessions are values in the store's map, not shared objects.
- The import-time defects are not modelled: the missing `Any` import, the unresolved `VectorSearchResult`, and the absent helpers imported by vietnamese_legal_chatbot.py. The model gives the intended logic, with those helpers as oracles.
- DocumentProcessor.LegalDocumentProcessor.ProcessLegalDocument: the extracted text is a parameter, while both extractors in the source return `""`; `legal_patterns` is unused and not modelled.
- `DocumentChunk` and `_create_chunks` are not modelled; the `_create_*` chunkers return empty lists here.
- Path names with trailing slashes are not normalised as `pathlib` does.
- `_extract_document_metadata` (upload_documents.py:215-235) is not modelled.
- SerpService.SerpApiService.SearchLegalDocuments: each query's results are all-or-nothing. An exception raised inside the per-result loop (serp_service.py:73-90), after some documents of that query were appended, keeps those documents and skips that query's limit check in Python; the model cannot express this case.
- UploadDocuments.DocumentUploader.ProcessBatches: the batch number is counted up from 1 rather than computed as `i // batch_size + 1`, which is the same value.
- The file system (directory checks, globbing, reading) is given as parameters.
- `get_chat_config`, `get_embedding_config`, `get_pinecone_config` and `log_key_status` of api_key_manager.py are not modelled. A missing key is `None`.
- The Settings fields of config.py other than `legal_domains`, and its module-level checks, are not modelled.
- The demo settings read two environments: the one at class definition and the one when `get_demo_config` is called. Both are parameters. The import-time prints are left out.
- CheckSystem.SystemInitializer.RunSystemCheck: the directory, dependency, config-file, port, sample-data and connectivity checks touch the file system, imports, sockets and the network, so each enters as a recorded run: its outcome and the errors and warnings it appended. The Python-version and environment checks are modelled by their inputs. Log lines are not modelled.
- CheckSystem.SystemInitializer.CheckPythonVersion: `sys.version_info` is a (major, minor, micro) triple.
- CheckSystem.SystemInitializer.CheckEnvironmentVariables: the log lines are returned as (name, masked value) pairs, and the descriptions of missing variables are not logged.
- `legal_rag.py`, `pinecone_service.py`, `chat_model.py`, `simple_config.py`, the UI and the scripts outside the uploader are not part of this model.

## Findings

| source | as written | input that shows it | evidently intended | confidence | as-written member | corrected member |
|---|---|---|---|---|---|---|
| vietnamese_legal_chatbot/app/utils/text_processing.py:459-464 | `_generate_search_keywords` reads `entity['value']` for `legal_procedure` entities, which `_extract_procedures` (lines 325-329) builds without a `value` key. The `KeyError` sends `preprocess_query` to its fallback. | the query `thủ tục đăng ký kết hôn` | procedure entities contribute their keyword as a search term, and the query is analysed normally | not executed | TextProcessing.PreprocessQuery | TextProcessing.PreprocessQueryIntended |
