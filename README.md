# TrustCheck Israel — a verified model of its checking core

TrustCheck Israel checks how far an Israeli business can be trusted. It looks a
company or dealer up by its registration number (ח.פ.), gathers what public
registers say about it, scores the risk, and has a language model write a report.
Beside this run an administrator's assistant and the pipeline that assembles the
fine-tuning corpus for a local model. This project models, in Dafny, the rules that
decide the outcome of each of those steps and proves what they promise:

- **The fine-tuning corpus** (`training_corpus.dfy`). The pruned directory walk,
  the suffix filter, URL extraction and the domain allow-list, page clean-up, and
  the dataset records in their fixed order with the 4000-character cap.
- **The administrator's routes**: document upload (`document_upload.dfy`), URL
  training (`training_urls.dfy`), document training (`training_document.dfy`) and
  the assistant chat (`admin_chat.dfy`). This covers text extraction, 500-character
  chunking, the JSONL output and the logs.
- **Identifiers and classification.** The search-box validation (`search_form.dfy`)
  and the checksum of 9-digit numbers (`collect_osek.dfy`). The rule that a number
  starting with 5 is a company (`osek_morsheh.dfy`, `vat_dealer.dfy`). The reading
  of the registrar's page (`scrape_registry.dfy`).
- **Sources.** The tax authority (`tax_authority.dfy`), the tax-certificate
  scraper (`tax_certificates.dfy`), the Companies Authority's owners
  (`ica_owners.dfy`), the courts (`courts_scraper.dfy`), the execution office
  (`execution_office.dfy`), the CheckID client (`checkid.dfy`), the open-data
  download (`download_datagov.dfy`) and the CSV cleaner (`clean_csv.dfy`).
- **Scoring and reporting.** The bookkeeping risk (`risk_calculator.dfy`), the
  unified record (`unified_data.dfy`), the report route (`report_route.dfy`), the
  language-model client (`gemini.dfy`) and the local model's output reading
  (`local_model.dfy`).

Shared pieces:
- `retry.dfy`: the retry loops with back-off.
- `chunking.dfy`: the 500-character pieces.
- `url_scan.dfy`: the greedy `https?://` scanner.
- `whitespace.dfy`: collapsing and trimming white space.
- `text.dfy`, `seqs.dfy` and `wrappers.dfy`: strings, sequences and options.

Networks, browsers, databases, files, clocks and random draws enter as
parameters. An HTTP exchange is what it answered, a database is a map or a
sink that may fail, and the clock is a `now` value. Loops in the source are
methods, each proved against a function that specifies it. Classes are used
where the source updates an object's fields: the chat history and the rate
limiter.

## Model

| member | source | states |
|---|---|---|
| AdminChat.SessionExpiry | app/api/admin/chat/route.ts:7-18 | a session is valid exactly while `expiresAt` lies after the current time; no cookie or an unreadable one is never valid |
| AdminChat.SearchDocuments | app/api/admin/chat/route.ts:21-50 | at most three results, none when the store cannot be read; each is a stored document matching the lowercased query in its content or title, with its title as source and exactly the first 500 characters of its content (all of it when shorter) |
| AdminChat.OccurrenceMatches | app/api/admin/chat/route.ts:32-35 | a query occurring in a document's content or title matches that document |
| AdminChat.FewHitsAllReturned | app/api/admin/chat/route.ts:31-40 | when at most three documents match, every matching document's excerpt is returned |
| AdminChat.ContextParts | app/api/admin/chat/route.ts:74-81 | no documents give no context; otherwise a heading, then for document k its numbered source line and its content |
| AdminChat.DocParts | app/api/admin/chat/route.ts:77-80 | the numbered source line and content parts of the documents from a given index on, two per document |
| AdminChat.ConversationContext | app/api/admin/chat/route.ts:84-86 | absent exactly when there is no history; an empty history gives the empty text and a single message its role-labelled line |
| AdminChat.ContextAppend | app/api/admin/chat/route.ts:84-86 | while the history holds fewer than five messages, one more message adds a line break and its role-labelled line at the end |
| AdminChat.OnlyLastFiveCount | app/api/admin/chat/route.ts:84 | messages older than the last five do not change the conversation context |
| AdminChat.Recorded | app/api/admin/chat/route.ts:143-158 | the history ends with the question and the answer with its sources, keeps the newest earlier entries, and has at most 100 entries |
| AdminChat.RecordedWithinLimit | app/api/admin/chat/route.ts:157-158 | the saved history never exceeds 100 entries, and nothing is dropped while it fits |
| AdminChat.ChatHistory.constructor | app/api/admin/chat/route.ts:135-141 | a history file that cannot be read starts an empty message list |
| AdminChat.ChatHistory.Record | app/api/admin/chat/route.ts:143-158 | the message list becomes the recorded history of the old list with the new exchange |
| AdminChat.Sources | app/api/admin/chat/route.ts:153 | the sources are the documents' titles, in order |
| AdminChat.PostChat | app/api/admin/chat/route.ts:52-178 | 401 without a valid session, 500 for a body that is not JSON, 400 without a message, 500 when the model gives no answer; otherwise the answer with the search results' sources, and the history recorded with the exchange |
| CheckId.MockModeIff | lib/checkid.ts:81-85 | mock data is used exactly when the key is empty, blank or contains `mock` |
| CheckId.ClientErrorStopsAtOnce | lib/checkid.ts:19-31 | a 4xx status other than 429 is raised at once, with no further attempt |
| CheckId.TransientErrorRetried | lib/checkid.ts:19-42 | a 429 or server error is retried, and the next attempt's value is returned |
| CheckId.MapAddress | lib/checkid.ts:172-176 | street and city default to empty; the zip code falls back to the postal code |
| CheckId.MapOwner | lib/checkid.ts:177-181 | an owner's name, id and role each come from the first field when it is filled, else from its alternative |
| CheckId.MapCheckIDResponse | lib/checkid.ts:165-188 | each field takes its first truthy alternative or its default (`Unknown`, the licensed-dealer type, `active`); address and owners are present exactly when the answer has them, and each owner is mapped in its place |
| CheckId.EmptyResponseDefaults | lib/checkid.ts:165-188 | an answer with no fields maps to the defaults |
| CheckId.GenerateRandomHP | lib/checkid.ts:210-212 | a drawn number is nine digits starting with 515 |
| CheckId.FinalName | lib/checkid.ts:233-237 | the given business name when it is not blank; else the query when it is not the number and longer than three characters; else `עסק ` and the number |
| CheckId.FinalNameNonEmpty | lib/checkid.ts:233-237 | the mock name is never empty |
| CheckId.GenerateMockBusinessByHP | lib/checkid.ts:218-270 | the placeholder record carries the number given, the chosen non-empty name, the licensed-dealer type, status active, no VAT, no owners or strengths and the notice about missing sources |
| CheckId.GetMockBusinessData | lib/checkid.ts:196-205 | a nine-digit query (after trimming) is kept as the number, any other gets a drawn one; the record always has a nine-digit number, the chosen name and the fixed placeholder fields |
| CheckId.PaddedNumberQuery | lib/checkid.ts:198-199 | a number surrounded by spaces is recognised, and a bare number names the business after itself |
| CheckId.SearchBusiness | lib/checkid.ts:79-125 | mock data without a real key or when every retry failed; otherwise the mapped business, or nothing when the answer was unsuccessful |
| CsvCleaner.Padding | scripts/clean_csv.py:57 | `n` empty fields |
| CsvCleaner.NormalizeRow | scripts/clean_csv.py:44-59 | every row comes out with exactly 29 fields: a long row is cut to its first 29, a short one keeps its fields and is padded with empty ones |
| CsvCleaner.NormalizeIdempotent | scripts/clean_csv.py:44-59 | cleaning a cleaned row changes nothing, and a row of 29 fields is written as it is |
| CsvCleaner.NormalizeKeepsFields | scripts/clean_csv.py:44-59 | every field within the first 29 keeps its value |
| CsvCleaner.CleanCsv | scripts/clean_csv.py:10-59 | an empty file is an error; otherwise the header cut to 29 fields and one cleaned row per input row, every row counted as processed and written, none skipped |
| CsvCleaner.LongRowExample | scripts/clean_csv.py:51-54 | a row of 31 fields loses its last two |
| CsvCleaner.ShortRowExample | scripts/clean_csv.py:55-59 | a row of 20 fields gains nine empty ones |
| CollectOsek.Weight | scripts/collect_osek_morsheh_database.ts:40-45 | a digit's contribution is itself, or at even indices its double less 9 when above 9, and is always a single digit |
| CollectOsek.CheckDigit | scripts/collect_osek_morsheh_database.ts:48 | the check digit `(10 - sum % 10) % 10` is a single digit |
| CollectOsek.ParseDigit | scripts/collect_osek_morsheh_database.ts:40 | a character parses exactly when it is a digit, to that digit's value |
| CollectOsek.CalculateIsraeliChecksum | scripts/collect_osek_morsheh_database.ts:35-50 | accepts exactly the nine-digit strings whose last digit is the check digit of the left-weighted sum of the first eight; any other length fails |
| CollectOsek.ChecksumIsMultipleOfTen | scripts/collect_osek_morsheh_database.ts:38-49 | a nine-digit number is valid exactly when its weighted sum plus its last digit is a multiple of ten |
| CollectOsek.CheckDigitCompletes | scripts/collect_osek_morsheh_database.ts:48-49 | a digit is the check digit of a sum exactly when it brings the sum to a multiple of ten |
| CollectOsek.CheckDigitUnique | scripts/collect_osek_morsheh_database.ts:48-49 | for every eight-digit prefix exactly one appended digit passes |
| CollectOsek.WeightedSumUpdate | scripts/collect_osek_morsheh_database.ts:38-46 | changing one digit changes the sum by exactly the difference of its two contributions |
| CollectOsek.SingleDigitErrorDetected | scripts/collect_osek_morsheh_database.ts:35-50 | changing any one digit of a valid number makes it invalid |
| CollectOsek.TotalShift | scripts/collect_osek_morsheh_database.ts:38-49 | changing one digit shifts the checked total by two different single digits |
| CollectOsek.ShiftBreaksMultiple | scripts/collect_osek_morsheh_database.ts:48-49 | a multiple of ten shifted by a non-zero single-digit difference is no longer one |
| CollectOsek.FindCheckDigit | scripts/collect_osek_morsheh_database.ts:77-85 | the search takes the first digit that passes, and for an eight-digit prefix it is the check digit |
| CollectOsek.PadStart | scripts/collect_osek_morsheh_database.ts:72-74 | the padded text ends with the original and is filled on the left up to the width |
| CollectOsek.NatToStringLength | scripts/collect_osek_morsheh_database.ts:72-74 | a number below `10^k` is written with at most `k` digits |
| CollectOsek.Middle | scripts/collect_osek_morsheh_database.ts:72-74 | a draw below ten million gives exactly seven digits |
| CollectOsek.GenerateValidHPNumbers | scripts/collect_osek_morsheh_database.ts:55-95 | `ceil(count / digits)` numbers per first digit, each passing the checksum and listed with its numeric value; number k starts with digit `k / ceil(count / digits)` of the list and carries draw k as its middle seven digits |
| CollectOsek.AllValidAppend | scripts/collect_osek_morsheh_database.ts:88-91 | joining two lists of valid numbers with their values gives a list of valid numbers with their values |
| CollectOsek.BlockDrawn | scripts/collect_osek_morsheh_database.ts:65-91 | the block for the next first digit continues the numbering: its numbers carry that digit and the following draws |
| CollectOsek.DivBlock | scripts/collect_osek_morsheh_database.ts:65 | a position inside block n of equal-size blocks divides to n |
| CollectOsek.GenerateForDigit | scripts/collect_osek_morsheh_database.ts:65-91 | one valid number per attempt for one first digit, each consuming one random draw |
| CollectOsek.NextNumber | scripts/collect_osek_morsheh_database.ts:71-85 | every draw yields a valid number made of the first digit and the drawn middle |
| CollectOsek.DigitPrefix | scripts/collect_osek_morsheh_database.ts:72-78 | the first digit and the seven drawn digits |
| CollectOsek.NewHPs | scripts/collect_osek_morsheh_database.ts:252-253 | exactly the generated numbers that are not already stored, each as often as it was generated |
| CollectOsek.NewHPsKeepOrder | scripts/collect_osek_morsheh_database.ts:253 | the new numbers keep the generated order |
| CollectOsek.NothingStoredKeepsAll | scripts/collect_osek_morsheh_database.ts:253 | with nothing stored every generated number is new |
| CollectOsek.SplitIntoChunks | scripts/collect_osek_morsheh_database.ts:264-273 | with `cs = ceil(n / 3)`: worker `i` gets a chunk exactly when `i * cs < n`, and that chunk is the slice of the new numbers from `i * cs` to `min(i * cs + cs, n)`; so at most three chunks, all non-empty and no longer than `cs`, whose concatenation is the new numbers |
| CollectOsek.OffsetIsProduct | scripts/collect_osek_morsheh_database.ts:268 | the offset of worker `k`, `k` chunks in, is `k * chunkSize` |
| CollectOsek.ChunkedSlices | scripts/collect_osek_morsheh_database.ts:267-273 | after the first `i` workers: at most one chunk each, fewer only once the list is used up, and each chunk is its worker's slice starting inside the list |
| CollectOsek.ChunkedFlatten | scripts/collect_osek_morsheh_database.ts:267-273 | the first `i` workers' chunks concatenate to the prefix of the new numbers up to `min(i * cs, n)` |
| CollectOsek.ChunkStep | scripts/collect_osek_morsheh_database.ts:264-273 | appending the next slice extends the covered prefix of the new numbers to its end |
| CourtsScraper.FilterCasesByHpNumber | lib/courts_scraper.ts:156-162 | exactly the cases whose plaintiff or defendant mentions the number |
| CourtsScraper.FilterKeepsOrder | lib/courts_scraper.ts:157 | the kept cases are in their original order |
| CourtsScraper.Categorized | lib/courts_scraper.ts:167-199 | each counter counts at most all the cases, and a total claimed is present only when positive |
| CourtsScraper.CountSnoc | lib/courts_scraper.ts:180-188 | one more case raises a counter by one exactly when its type carries the keyword |
| CourtsScraper.ClaimSnoc | lib/courts_scraper.ts:189 | one more case adds its own claim to the total |
| CourtsScraper.CategorizeCases | lib/courts_scraper.ts:167-199 | the loop's counters are the per-keyword counts of the cases and the claimed total is the sum of the amounts, left out when zero |
| CourtsScraper.SeveralCounters | lib/courts_scraper.ts:184-187 | one case can raise two counters at once |
| CourtsScraper.SearchLegalCases | lib/courts_scraper.ts:59-93 | the cases are filtered by the number when one is given; the totals are the number of cases and of active and closed ones, and the categories are those of the filtered cases |
| CourtsScraper.CheckBankruptcyStatus | lib/courts_scraper.ts:224-241 | the bankruptcy cases are exactly the cases typed bankruptcy or liquidation, each as often and in the order the search returned it, and the company is bankrupt exactly when one of them is active |
| CourtsScraper.CalculateLitigationRisk | lib/courts_scraper.ts:248-268 | ten per active case, thirty per bankruptcy and per liquidation case, the claimed-amount tier and five per commercial case, capped at 100 and never negative |
| CourtsScraper.HebrewIsLower | lib/courts_scraper.ts:182-187 | the Hebrew keywords are unchanged by lower-casing |
| CourtsScraper.BankruptcyTypeCategorized | lib/courts_scraper.ts:186-235 | a case the bankruptcy check selects is counted as bankruptcy or liquidation |
| CourtsScraper.ActiveInsolvencyCaseRisk | lib/courts_scraper.ts:252-256 | an active bankruptcy or liquidation case gives a litigation risk of at least 40 |
| CourtsScraper.BankruptMeansLitigationRisk | lib/courts_scraper.ts:224-268 | a company found bankrupt has a litigation risk of at least 40 |
| CourtsScraper.LitigationRiskMonotone | lib/courts_scraper.ts:248-268 | more cases in any counted class never lower the risk |
| DocumentUpload.ExtractUrls | app/api/admin/documents/upload/route.ts:21-25 | distinct URLs, each a well-formed `http(s)://` run occurring in the text; a URL is listed exactly when the pattern matches it, and the list follows the order of first matches |
| DocumentUpload.ParenthesisKept | app/api/admin/documents/upload/route.ts:22 | unlike the training script's pattern, a closing parenthesis right after a URL is extracted as part of it |
| DocumentUpload.LastDot | app/api/admin/documents/upload/route.ts:29 | the position of the last dot in a file name, or none |
| DocumentUpload.Extname | app/api/admin/documents/upload/route.ts:29 | the extension is empty or a suffix of the name that starts at its only dot |
| DocumentUpload.ExtnameOfName | app/api/admin/documents/upload/route.ts:29 | a base name joined to a dot-free extension has that extension |
| DocumentUpload.ReplaceDisallowed | app/api/admin/documents/upload/route.ts:38-49 | same length; each character outside printable ASCII, line breaks, Hebrew and Cyrillic becomes a space and every other one is kept in place, so only allowed characters remain |
| DocumentUpload.CleanTextSpacing | app/api/admin/documents/upload/route.ts:38-40 | the cleaned text has no white space at either end, never two white-space characters side by side, and no white space but the space |
| DocumentUpload.CleanTextAllowed | app/api/admin/documents/upload/route.ts:38-40 | the cleaned text contains only allowed characters |
| DocumentUpload.CleanTextKeepsText | app/api/admin/documents/upload/route.ts:38-40 | cleaning keeps every non-space character, in order |
| DocumentUpload.ExtractTextFromFile | app/api/admin/documents/upload/route.ts:28-55 | text and markdown files are kept, PDF and Word files are cleaned, anything else has its disallowed characters replaced |
| DocumentUpload.KindIgnoresCase | app/api/admin/documents/upload/route.ts:29-33 | two names that differ only in the case of their extension are handled the same way |
| DocumentUpload.TextFileKept | app/api/admin/documents/upload/route.ts:29-33 | a `.txt` or `.md` file, in any letter case, is kept exactly as read |
| DocumentUpload.OtherFilesKeepLength | app/api/admin/documents/upload/route.ts:47-50 | the fallback keeps the length and every allowed character |
| DocumentUpload.Contents | app/api/admin/documents/upload/route.ts:64 | the contents of the chunks, in order |
| DocumentUpload.VectorizeDocument | app/api/admin/documents/upload/route.ts:58-73 | the chunk contents are consecutive 500-character slices of the text, each carrying the metadata and its own index |
| DocumentUpload.VectorizedDocumentCovers | app/api/admin/documents/upload/route.ts:62-70 | the chunks put together are the text, every chunk but the last is full, and empty text gives no chunks |
| DownloadDatagov.DigitIn | scripts/download_osek_from_datagov.ts:136 | the value of a digit character in a radix, below the radix; in base ten exactly the decimal digits |
| DownloadDatagov.LeadingRun | scripts/download_osek_from_datagov.ts:136 | the length of the longest leading run of digits, which `parseInt` reads |
| DownloadDatagov.ParseIntDigits | scripts/download_osek_from_datagov.ts:136 | `parseInt` of a string of decimal digits is its decimal value |
| DownloadDatagov.LeadingRunAll | scripts/download_osek_from_datagov.ts:136 | a string made only of digits is read to its end |
| DownloadDatagov.RunValueDecimal | scripts/download_osek_from_datagov.ts:136 | a run read in base ten has its decimal value |
| DownloadDatagov.ParseIntHex | scripts/download_osek_from_datagov.ts:136 | a `0x` prefix makes `parseInt` read the rest in base sixteen |
| DownloadDatagov.SignedHex | scripts/download_osek_from_datagov.ts:136 | the same once leading white space is gone |
| DownloadDatagov.Candidate | scripts/download_osek_from_datagov.ts:129-142 | the number is `parseInt` of the trimmed first-found number text; the name is the trimmed first filled name column, or `Unknown`; the type the trimmed first filled type column, or עוסק מורשה; the city the trimmed city column when there is one; the raw row is kept |
| DownloadDatagov.Candidates | scripts/download_osek_from_datagov.ts:129-142 | one mapped record per row, in order, each keeping its row |
| DownloadDatagov.Raws | scripts/download_osek_from_datagov.ts:140 | the raw rows of the candidates, in order |
| DownloadDatagov.ParseCsvForOsek | scripts/download_osek_from_datagov.ts:118-146 | exactly the rows that have a number whose trimmed text is nine characters not starting with 5, in order, each mapped with its first-found number, name, type and city; a row repeated in the file is kept as often as it occurs |
| DownloadDatagov.NineDigitNumberKept | scripts/download_osek_from_datagov.ts:119-136 | a row whose dealer-number column holds nine digits not starting with 5 is kept with that number |
| DownloadDatagov.FirstColumnWins | scripts/download_osek_from_datagov.ts:121 | the number comes from the first of the four columns that is filled |
| DownloadDatagov.UncheckedCharactersKept | scripts/download_osek_from_datagov.ts:124-127 | the filter checks only the length and the first character, so nine non-digits are kept too |
| DownloadDatagov.Ids | scripts/download_osek_from_datagov.ts:233 | the ids of the datasets, in order |
| DownloadDatagov.IdIndex | scripts/download_osek_from_datagov.ts:233 | the position of an id among the map's entries, or the end when it is missing |
| DownloadDatagov.IdIndexFirst | scripts/download_osek_from_datagov.ts:233 | no entry before that position has the id |
| DownloadDatagov.UniqueDatasetsIds | scripts/download_osek_from_datagov.ts:232-234 | the unique datasets' ids are the ids in order of first appearance, without repeats |
| DownloadDatagov.SetEntryIds | scripts/download_osek_from_datagov.ts:233 | setting an entry keeps the key order and adds a new key at the end |
| DownloadDatagov.UniqueDatasetsLast | scripts/download_osek_from_datagov.ts:232-234 | each unique dataset is the last one seen with its id |
| DownloadDatagov.LastIsLast | scripts/download_osek_from_datagov.ts:233 | the dataset just seen is the last of its id |
| DownloadDatagov.LastCarried | scripts/download_osek_from_datagov.ts:233 | an entry that another id's dataset does not overwrite stays the last of its id |
| DownloadDatagov.UniqueDatasetsDistinct | scripts/download_osek_from_datagov.ts:232-234 | no id repeats among the unique datasets, and every dataset's id is among them |
| DownloadDatagov.CsvFormatIff | scripts/download_osek_from_datagov.ts:266-268 | a resource is a CSV exactly when its format is `csv` in any letter case |
| DownloadDatagov.CsvResources | scripts/download_osek_from_datagov.ts:266-268 | exactly the CSV resources |
| DownloadDatagov.CollectedAreKept | scripts/download_osek_from_datagov.ts:263-282 | every collected record passed the filter |
| DownloadDatagov.FromResourcesKept | scripts/download_osek_from_datagov.ts:270-281 | every record read from a dataset's resources passed the filter |
| DownloadDatagov.LoadResources | scripts/download_osek_from_datagov.ts:270-281 | the records of every CSV resource that loads, in order; a resource that fails adds nothing |
| DownloadDatagov.CollectRecords | scripts/download_osek_from_datagov.ts:263-282 | the records of all datasets' CSV resources, dataset by dataset |
| DownloadDatagov.OutcomeOf | scripts/download_osek_from_datagov.ts:160-196 | a record is imported exactly when its database work does not throw, its number is a number, it is not already stored and its decimal text does not start with 5 (the upsert's `validateHPNotFive` throws otherwise); skipped exactly when the query works and its number is already stored, whatever its first digit; an error otherwise |
| DownloadDatagov.ImportStep | scripts/download_osek_from_datagov.ts:160-196 | one more record grows the counter of its outcome by one and adds its row exactly when it is imported |
| DownloadDatagov.ImportedRowsFromRecords | scripts/download_osek_from_datagov.ts:175-186 | each upserted row is the row of a distinct record, in the records' order, that reached the upsert with a number not stored before the import |
| DownloadDatagov.TallyTotal | scripts/download_osek_from_datagov.ts:160-196 | every record is counted once, and the imported counter is the number of rows upserted |
| DownloadDatagov.ImportedRowsDistinct | scripts/download_osek_from_datagov.ts:163-171 | no number is upserted twice |
| DownloadDatagov.ImportedRowsComplete | scripts/download_osek_from_datagov.ts:163-186 | every record whose database work does not throw, whose number is a number and whose number does not start with 5 ends up stored |
| DownloadDatagov.ImportToDatabase | scripts/download_osek_from_datagov.ts:152-205 | the counters and the upserted rows are those of the per-record outcomes, in order: imported, skipped and errors add up to the records; each row is the row of a record that reached the upsert with a number not yet stored, always VAT-registered, from data.gov.il and pending; no number twice; no upserted number starts with 5; every record whose work goes through and whose number does not start with 5 ends up stored |
| DownloadDatagov.ImportedRowsNoCompany | scripts/download_osek_from_datagov.ts:175-184 | no upserted row carries a number whose decimal text starts with 5 |
| DownloadDatagov.ZeroPaddedParse | scripts/download_osek_from_datagov.ts:124-136 | a `0` followed by eight digits is its own trim and `parseInt` reads it as the value of the eight digits, dropping the zero |
| DownloadDatagov.EightDigitsFromFive | scripts/download_osek_from_datagov.ts:136 | eight digits starting with 5 make a number whose decimal text starts with 5 |
| DownloadDatagov.LeadingZeroRefused | scripts/download_osek_from_datagov.ts:124-136 | a number text `0` followed by eight digits starting with 5 passes the filter and is parsed to a number that the upsert refuses, so with working database work the record is an error, while the same record checked on its text is imported |
| DownloadDatagov.OutcomeOnText | scripts/download_osek_from_datagov.ts:160-196 | the outcome with the company check made on the kept text: imported exactly when the database work does not throw, the number is a number not stored and the kept text does not start with 5 |
| DownloadDatagov.KeptNeverRefusedOnText | scripts/download_osek_from_datagov.ts:119-136 | with the check on the text, every record the filter keeps, with a number not yet stored and working database work, is imported |
| ExecutionOffice.MapStatus | lib/execution_office.ts:207-221 | on the lower-cased text: active when it says active; else closed when it says closed; else suspended when it says suspended; else active |
| ExecutionOffice.ClosedKeyword | lib/execution_office.ts:208-214 | the English keyword is recognised in capitals |
| ExecutionOffice.NoKeywordIsActive | lib/execution_office.ts:220 | a status without a closing or suspending keyword is active |
| ExecutionOffice.ActiveKeywordWins | lib/execution_office.ts:210-212 | the active keyword wins over the others |
| ExecutionOffice.ActiveDebtAppend | lib/execution_office.ts:238-242 | the active debt of two lists is the sum of theirs |
| ExecutionOffice.NoActiveNoDebt | lib/execution_office.ts:238-242 | proceedings none of which is active owe nothing |
| ExecutionOffice.CalculateExecutionStats | lib/execution_office.ts:226-263 | the total debt sums the active proceedings' amounts; there is active debt exactly when some proceeding is active, and a payment plan exactly when some proceeding has one |
| ExecutionOffice.SearchExecutionProceedings | lib/execution_office.ts:60-96 | the portal is asked only when the open-data list is empty and a name is given; the totals count the proceedings and the active ones, at most all of them; the debt is the active proceedings' sum, there is active debt exactly when one is active and a payment plan exactly when some proceeding has one; the average age is the one given |
| ExecutionOffice.Clamp | lib/execution_office.ts:310 | the clamped value lies in the range and a value already in it is kept |
| ExecutionOffice.CalculateDebtSeverity | lib/execution_office.ts:292-311 | ten per active proceeding plus the debt tier and the age tier, less ten with a payment plan, clamped to 0..100 |
| ExecutionOffice.SeverityMonotone | lib/execution_office.ts:292-311 | more active proceedings, more debt, older debt or losing a payment plan never lower the severity |
| ExecutionOffice.CriticalIsSevere | lib/execution_office.ts:316-327 | a record with critical debt issues has a severity of at least 10 |
| ExecutionOffice.QuietRecordHasNoSeverity | lib/execution_office.ts:292-327 | no active proceedings, small and recent debt and no plan give severity 0 and no critical issue |
| Gemini.QuotaErrorStopsAtOnce | lib/gemini.ts:20-33 | an error whose message mentions a quota is raised at once |
| Gemini.NonErrorRetried | lib/gemini.ts:20-43 | a throw that is not an `Error` is retried, and the next attempt's value is returned |
| Gemini.GenerateBusinessReport | lib/gemini.ts:15-80 | the model's report when some attempt of three succeeds, else the mock report; the waits before retries are 2000 ms doubled each time, at most two of them |
| Gemini.ThreeFailuresGiveMock | lib/gemini.ts:20-46 | three failed attempts end in the last error, after two retries |
| Gemini.LastIndexOf | lib/gemini.ts:226 | the last position of a character, or -1 |
| Gemini.FirstIndexOf | lib/gemini.ts:226 | the first position of a character, or the length |
| Gemini.JsonSpan | lib/gemini.ts:226-229 | found exactly when some `{` comes before some `}`; it runs from the first `{` to the last `}` |
| Gemini.JsonSpanOfWrapped | lib/gemini.ts:226 | a braced object surrounded by text without braces is found whole |
| Gemini.ExtractKeyFacts | lib/gemini.ts:195-242 | the parsed span of the answer; the fixed fallback facts when there is no answer, no span or a span that does not parse |
| Gemini.NoBracesFallback | lib/gemini.ts:226-240 | an answer without `{` gives the fallback facts |
| Gemini.WithholdingTaxIssuesAlwaysZero | lib/gemini.ts:107-108 | as written, the count of missing withholding certificates is zero for every record |
| Gemini.WithholdingTaxIssues | lib/gemini.ts:107-108 | the intended count: the categories whose status is no approval, at most eight, zero exactly when none is |
| Gemini.NoApprovalTextIff | lib/gemini.ts:108 | the status text `אין אישור` belongs to the no-approval status alone |
| Gemini.WithholdingFindingWitness | lib/gemini.ts:107-108 | a record with all eight categories unapproved counts eight as intended and zero as written |
| IcaOwners.Ownership | lib/scrapers/ica_owners.ts:74 | a share is kept when it parses to a non-zero number; `NaN` and zero are dropped |
| IcaOwners.ParseOwners | lib/scrapers/ica_owners.ts:68-78 | one owner per shareholder, in order, named `Unknown` when nameless, with its id, its share and role `owner`; none when the list is not an array; the loop builds exactly the owners of the list |
| IcaOwners.ParseDirectors | lib/scrapers/ica_owners.ts:80-89 | one director per listed director, in order, with no share and role `director`; none when the list is not an array; the loop builds exactly the directors of the list |
| IcaOwners.FetchIcaOwners | lib/scrapers/ica_owners.ts:33-107 | nothing when the request throws, the status is an error, or the answer has no company name; otherwise the company with exactly the owners read from its shareholder list and the directors read from its director list, its dates and status, stamped with the current time |
| IcaOwners.SingleOwnerIffOneShareholder | lib/scrapers/ica_owners.ts:68-115 | a fetched company has a single owner exactly when its answer lists one shareholder, since every listed shareholder becomes an owner |
| IcaOwners.Names | lib/scrapers/ica_owners.ts:123-124 | exactly the names that occur in the list |
| IcaOwners.SharedNameSymmetric | lib/scrapers/ica_owners.ts:123-128 | whether a name is shared does not depend on which list is the owners' |
| IcaOwners.SharedNameWitness | lib/scrapers/ica_owners.ts:126-128 | an owner and a director with the same name make the names shared |
| IcaOwners.SingleOwnerDirector | lib/scrapers/ica_owners.ts:112-131 | a single-owner company has an owner-director exactly when some director bears the owner's name |
| IcaOwners.HasOwnerDirector | lib/scrapers/ica_owners.ts:120-131 | true exactly when there is data and some owner's name is also a director's name |
| IcaOwners.CalculateCompanyAge | lib/scrapers/ica_owners.ts:136-145 | no age without a date, `NaN` when the date does not parse, otherwise the whole number of 365.25-day years elapsed, rounded down |
| LocalModel.FindLine | lib/trustcheck_local_model.ts:191 | the index of the first line containing the marker, with no earlier one containing it; the number of lines when none does |
| LocalModel.FindLineCons | lib/trustcheck_local_model.ts:191 | a first line without the marker moves the index of the marker line one place on |
| LocalModel.AfterMarkerLine | lib/trustcheck_local_model.ts:190-196 | reference reading on the text: what follows the line break after the first line mentioning the marker; nothing only when the text does not contain the marker |
| LocalModel.FirstLineShape | lib/trustcheck_local_model.ts:193-195 | after a first line that mentions the marker comes a suffix that follows a line break |
| LocalModel.LaterLineShape | lib/trustcheck_local_model.ts:190-195 | a reading of the rest after the first line is a reading of the whole text |
| LocalModel.NotInLines | lib/trustcheck_local_model.ts:190-191 | a marker without a line break found in no line is not in the text |
| LocalModel.LinesAgree | lib/trustcheck_local_model.ts:190-195 | splitting into lines, finding the marker line and joining the lines after it gives the reference reading |
| LocalModel.ExtractReportFromOutput | lib/trustcheck_local_model.ts:188-205 | the trimmed text after the first report line; failing that, the trimmed text from the first progress message; failing that, the whole output; always a part of the output |
| LocalModel.ReportAfterHeading | lib/trustcheck_local_model.ts:188-196 | in an output of a preamble, a heading and a report, the report alone is returned |
| LocalModel.HeadingLine | lib/trustcheck_local_model.ts:190-195 | the reading of a preamble line, a marker line and the rest is the rest |
| LocalModel.SkipLine | lib/trustcheck_local_model.ts:191 | a first line without the marker is passed over |
| LocalModel.MarkerLine | lib/trustcheck_local_model.ts:191-195 | a first line with the marker gives everything after it |
| LocalModel.NoMarkerUnchanged | lib/trustcheck_local_model.ts:199-204 | an output mentioning neither marker is returned unchanged |
| LocalModel.CheckModelAvailability | lib/trustcheck_local_model.ts:210-224 | available exactly when the directory can be listed and holds both adapter files |
| LocalModel.AvailabilityIgnoresOtherFiles | lib/trustcheck_local_model.ts:216-220 | other files in the directory do not matter |
| OsekMorsheh.StartsWithFiveRange | lib/db/osek_morsheh.ts:40-41 | a number's decimal text starts with 5 exactly when it lies in `[5*10^k, 6*10^k)` for some `k`; a negative number's text starts with `-` |
| OsekMorsheh.NineDigitCompanies | lib/db/osek_morsheh.ts:187-190 | a nine-digit number starts with 5 exactly when it lies between 500000000 and 599999999 |
| OsekMorsheh.PowOrder | lib/db/osek_morsheh.ts:40-41 | powers of ten grow at least tenfold per step |
| OsekMorsheh.ValidateHPNotFive | lib/db/osek_morsheh.ts:39-47 | an error exactly for the numbers whose decimal text starts with 5 |
| OsekMorsheh.GetOsekMorsheh | lib/db/osek_morsheh.ts:52-98 | refuses a number starting with 5 before reading; otherwise the stored row, or none when the number is not stored |
| OsekMorsheh.UpsertOsekMorsheh | lib/db/osek_morsheh.ts:103-127 | refuses a number starting with 5 before writing; otherwise the row is sent to the store |
| OsekMorsheh.ClassifyByHPNumber | lib/db/osek_morsheh.ts:182-206 | a leading 5 is a registered company that needs no lookup; anything else is an unregistered exempt dealer that does; registration is always the opposite of needing a lookup |
| OsekMorsheh.GetUnifiedVATStatus | lib/db/osek_morsheh.ts:215-257 | the fixed company record for a leading 5, with no lookup; otherwise the stored row's fields, or the exempt, unregistered, unknown inference when nothing is stored |
| OsekMorsheh.CompanyIgnoresStore | lib/db/osek_morsheh.ts:225-234 | for a company the store's contents do not matter |
| OsekMorsheh.RowFor | lib/db/osek_morsheh.ts:286-300 | missing dealer type and tax status default to exempt and active, and registration holds exactly for a licensed dealer |
| OsekMorsheh.AttemptedNoCompany | lib/db/osek_morsheh.ts:280-284 | no row sent to the store has a number starting with 5 |
| OsekMorsheh.AttemptedStep | lib/db/osek_morsheh.ts:277-300 | one more record adds its row to the sent rows unless its number starts with 5 |
| OsekMorsheh.AcceptedStep | lib/db/osek_morsheh.ts:277-310 | one more record adds its row to the stored rows exactly when its number does not start with 5 and the store takes it |
| OsekMorsheh.AcceptedWithinAttempted | lib/db/osek_morsheh.ts:277-310 | the stored rows are among the rows sent, as often as they are sent, and a store that never throws keeps every row sent |
| OsekMorsheh.BatchImportOsek | lib/db/osek_morsheh.ts:263-316 | inserted plus failed is the number of records; the rows sent are those of the records not starting with 5, in order; the rows stored are those of the sent records the store did not throw for, in order, and inserted is their number; every company record and every failed upsert is counted as failed |
| ReportRoute.LookupKey | app/api/report/route.ts:33 | the registration number when one is given, else the business name; never empty |
| ReportRoute.Risks | app/api/report/route.ts:65-72 | one fixed text per raised indicator in the fixed order; the violation text is present exactly when the company is violating, and then first |
| ReportRoute.RisksCount | app/api/report/route.ts:65-72 | there are as many risks as raised indicators, and none exactly when no indicator is raised |
| ReportRoute.Strengths | app/api/report/route.ts:74-76 | no strengths for a violating company, otherwise the two fixed ones |
| ReportRoute.CheckIdCompatible | app/api/report/route.ts:50-77 | the unified record in the CheckID shape: name, number and status carried over, address parts defaulting to empty, the owners passed on one by one with each owner's name and role, and the risks and strengths lists |
| ReportRoute.PostReport | app/api/report/route.ts:16-143 | 500 for a body that is not JSON, 400 for a missing or blank name, 404 when the lookup finds nothing; otherwise the report written for the compatible record and the key facts drawn from the model's answer |
| ReportRoute.BlankNameRefused | app/api/report/route.ts:23-28 | a name made only of white space is refused |
| ReportRoute.ViolatingReport | app/api/report/route.ts:65-76 | a violating company's record lists the violation first and no strengths |
| BookkeepingRisk.ViolationFactor | lib/risk_calculator.ts:61-73 | at most one factor, and its impact is positive |
| BookkeepingRisk.LegalFactor | lib/risk_calculator.ts:75-88 | at most one factor, and its impact is positive |
| BookkeepingRisk.ExecutionFactor | lib/risk_calculator.ts:90-103 | at most one factor, and its impact is positive |
| BookkeepingRisk.BankFactor | lib/risk_calculator.ts:105-117 | at most one factor, and its impact is positive |
| BookkeepingRisk.AgeFactor | lib/risk_calculator.ts:119-139 | at most one factor, and its impact is positive |
| BookkeepingRisk.SingleOwnerFactor | lib/risk_calculator.ts:141-153 | at most one factor, and its impact is positive |
| BookkeepingRisk.AbsentOwnerFactor | lib/risk_calculator.ts:155-167 | at most one factor, and its impact is positive |
| BookkeepingRisk.WithholdingFactor | lib/risk_calculator.ts:169-182 | at most one factor, and its impact is positive |
| BookkeepingRisk.DebtFactor | lib/risk_calculator.ts:184-196 | at most one factor, and its impact is positive |
| BookkeepingRisk.StatusFactor | lib/risk_calculator.ts:198-218 | at most one factor, and its impact is positive |
| BookkeepingRisk.DataPoints | lib/risk_calculator.ts:59-200 | the number of present indicators, at most ten |
| BookkeepingRisk.CalculateBookkeepingRisk | lib/risk_calculator.ts:56-244 | the fired factors in order, the summed score capped at 95, confidence ten points per present indicator, the level of the score and its recommendation |
| BookkeepingRisk.ViolationsBlock | lib/risk_calculator.ts:61-73 | the block counts the indicator when present and adds its factor and points |
| BookkeepingRisk.LegalCasesBlock | lib/risk_calculator.ts:75-88 | the same for active legal cases |
| BookkeepingRisk.ExecutionBlock | lib/risk_calculator.ts:90-103 | the same for execution proceedings |
| BookkeepingRisk.BankBlock | lib/risk_calculator.ts:105-117 | the same for a restricted bank account |
| BookkeepingRisk.AgeBlock | lib/risk_calculator.ts:119-139 | the same for the company's age |
| BookkeepingRisk.SingleOwnerBlock | lib/risk_calculator.ts:141-153 | the same for a single owner |
| BookkeepingRisk.OwnerDirectorBlock | lib/risk_calculator.ts:155-167 | the same for an owner who is not a director |
| BookkeepingRisk.WithholdingBlock | lib/risk_calculator.ts:169-182 | the same for withholding-tax gaps |
| BookkeepingRisk.DebtBlock | lib/risk_calculator.ts:184-196 | the same for high debt |
| BookkeepingRisk.StatusBlock | lib/risk_calculator.ts:198-218 | the same for the company's status |
| BookkeepingRisk.AllPositiveAppend | lib/risk_calculator.ts:62-218 | lists of positive-impact factors stay so when joined |
| BookkeepingRisk.FactorImpactsPositive | lib/risk_calculator.ts:62-218 | every fired factor has a positive impact |
| BookkeepingRisk.SumOfAtMostOne | lib/risk_calculator.ts:62-218 | the points of a block are the sum of its factors' impacts |
| BookkeepingRisk.SumStep | lib/risk_calculator.ts:62-218 | adding a block's factors adds its points |
| BookkeepingRisk.RawScoreIsSum | lib/risk_calculator.ts:62-218 | before the cap the score is the sum of the impacts of the listed factors |
| BookkeepingRisk.ScoreInRange | lib/risk_calculator.ts:221 | the score lies between 0 and 95 |
| BookkeepingRisk.ConfidenceInRange | lib/risk_calculator.ts:224-225 | confidence is ten per present indicator, between 0 and 100 |
| BookkeepingRisk.SumAtLeastMember | lib/risk_calculator.ts:62-218 | a sum of positive impacts is at least each of them |
| BookkeepingRisk.FiredFactorBoundsScore | lib/risk_calculator.ts:62-221 | the score is at least each fired factor's impact, up to the cap |
| BookkeepingRisk.LiquidationIsHighRisk | lib/risk_calculator.ts:199-232 | a company in liquidation scores at least 50, so high or critical |
| BookkeepingRisk.ViolatingAndRestrictedIsCritical | lib/risk_calculator.ts:62-229 | a violating company with a restricted account is critical |
| BookkeepingRisk.NoDataNoRisk | lib/risk_calculator.ts:56-232 | with no indicator present there are no factors, no score and a low level |
| BookkeepingRisk.ViolationCodeRule | lib/risk_calculator.ts:62-73 | code 18 adds nothing without a `violations` field and 40 with one |
| BookkeepingRisk.IndicatorCaps | lib/risk_calculator.ts:79-173 | legal cases give at most 25, execution proceedings at most 30, withholding gaps at most 20 and nothing below four categories; the caps are reached from four cases and three proceedings |
| BookkeepingRisk.AgeBands | lib/risk_calculator.ts:119-139 | under one year 25 points, under three years 15, otherwise none |
| BookkeepingRisk.FlagPoints | lib/risk_calculator.ts:105-218 | a restricted account adds 35, a single owner 10, an owner who is not a director 8, a debt above 100,000 15, liquidation 50 and an inactive company 30, and each adds nothing otherwise |
| BookkeepingRisk.LevelsAreKnown | lib/risk_calculator.ts:228-288 | every computed level is one of the four, so the recommendation, label and colour are never the fallbacks, which unknown levels get |
| BookkeepingRisk.LevelMonotone | lib/risk_calculator.ts:228-232 | a higher score never gives a lower level |
| BookkeepingRisk.RenderingsDistinct | lib/risk_calculator.ts:249-288 | the four risk levels get four different Hebrew labels and four different colours |
| ScrapeRegistry.ClassifyDealer | scripts/scrape_companies_registry.ts:176-189 | a licensed dealer when the type text says so; else exempt when it mentions a dealer at all; else a company for a limited or private company; else unknown; registration follows the class |
| ScrapeRegistry.LicensedMentionsDealer | scripts/scrape_companies_registry.ts:183 | both dealer phrases contain the word for dealer, so the exempt test reduces to it |
| ScrapeRegistry.WordInPhrase | scripts/scrape_companies_registry.ts:183 | a text that contains a phrase contains every word that starts it |
| ScrapeRegistry.ClassifyStatus | scripts/scrape_companies_registry.ts:191-201 | active when the status text says active or registered; else dissolved for liquidation or deletion; else violating; else unknown |
| ScrapeRegistry.NegatedActivityReadsActive | scripts/scrape_companies_registry.ts:195-196 | any status text containing the word for active, a negated one included, reads as active |
| ScrapeRegistry.FirstText | scripts/scrape_companies_registry.ts:124-130 | the first non-empty text among the selectors, or none when all are empty |
| ScrapeRegistry.KeptOwners | scripts/scrape_companies_registry.ts:213-226 | at most one owner per row, each with a name, each taken from a row of at least two cells |
| ScrapeRegistry.KeptOwnersCount | scripts/scrape_companies_registry.ts:216-224 | one owner for every row with at least two cells and a non-empty name |
| ScrapeRegistry.KeptOwnersSnoc | scripts/scrape_companies_registry.ts:216-224 | one more row adds its owner exactly when it has two cells and a name, and leaves the earlier owners as they were |
| ScrapeRegistry.ParseOwnerRows | scripts/scrape_companies_registry.ts:213-226 | the loop keeps exactly the owner rows, in order |
| ScrapeRegistry.ScrapeCompanyData | scripts/scrape_companies_registry.ts:68-257 | nothing when the page crashes or carries one of the four error texts; otherwise the business with its first-found name, its type text and the dealer class and status drawn from it, its owners, stamped with the current time |
| ScrapeRegistry.RowFor | scripts/scrape_companies_registry.ts:283-299 | the saved row is never a company: a company or unknown dealer is saved as exempt, the registration flag is kept, and the tax status is active only for an active business |
| ScrapeRegistry.CompanySavedAsExempt | scripts/scrape_companies_registry.ts:284-294 | a company is saved as an exempt dealer that is still marked VAT-registered |
| ScrapeRegistry.ProcessHp | scripts/scrape_companies_registry.ts:276-307 | a success exactly when the business is found, its number does not start with 5 and the save does not throw; not found exactly when the visit crashes or the page says that nothing was found, since either gives no data; a failure exactly when opening the tab throws, or a found business's upsert refuses it with the 5 rule or throws; the store gains the saved row of the business read from its page exactly on success and is otherwise unchanged |
| ScrapeRegistry.CompanyNumberFails | scripts/scrape_companies_registry.ts:289-304 | a found business with a nine-digit company number (500000000 to 599999999) is always a failure and is never saved, because the upsert refuses it |
| ScrapeRegistry.TallyStep | scripts/scrape_companies_registry.ts:280-306 | one more attempt raises exactly the counter of its outcome |
| ScrapeRegistry.StatsTotal | scripts/scrape_companies_registry.ts:276-306 | every attempt is counted once: the three counters add up to the number of attempts |
| ScrapeRegistry.SavedRowsStep | scripts/scrape_companies_registry.ts:276-302 | one more attempt adds its business's saved row exactly when its save succeeds |
| ScrapeRegistry.SavedRowsCount | scripts/scrape_companies_registry.ts:289-302 | one row is stored for every successful attempt |
| ScrapeRegistry.SavedRowsNoCompany | scripts/scrape_companies_registry.ts:283-299 | no stored row is a company, every one is marked as scraped, and no stored number starts with 5 |
| ScrapeRegistry.ScrapeMultiple | scripts/scrape_companies_registry.ts:262-327 | the three counters count the successful, unfound and failed attempts and add up to the numbers given; the store ends with the saved rows of the successful attempts, in order, one per success, never as a company and never with a number starting with 5; a 2000 ms wait between consecutive numbers |
| SearchForm.StripSeparators | components/SearchForm.tsx:16 | every dash and white-space character is deleted and every other character is kept, as often as it occurs and in its order |
| SearchForm.ValidateInput | components/SearchForm.tsx:7-36 | the trimmed query is an H.P. number exactly when it is nine digits; else a phone exactly when, without dashes and spaces, it is 05 and eight digits; else a Hebrew name with two Hebrew letters in a row; else an English name with two Latin letters in a row; else invalid; valid exactly when not invalid, the message only on the invalid answer |
| SearchForm.DigitsOnlyQuery | components/SearchForm.tsx:11-18 | an all-digit query is an H.P. number exactly at nine digits, a phone exactly at ten starting 05, and valid only in those two cases |
| SearchForm.DigitsOnlyText | components/SearchForm.tsx:16-26 | digits have no separators to strip and never form a name |
| SearchForm.DigitClass | components/SearchForm.tsx:16-26 | a digit is kept by the phone rule and is neither a Hebrew nor a Latin letter |
| SearchForm.TrimUntouched | components/SearchForm.tsx:8 | a query without white space at its ends is not changed by trimming |
| SearchForm.StripDashedPhone | components/SearchForm.tsx:16 | a dashed mobile number 05X-XXXXXXX loses exactly its dash |
| SearchForm.DashedPhone | components/SearchForm.tsx:15-18 | a dashed mobile number is read as a phone |
| SearchForm.BlankIsInvalid | components/SearchForm.tsx:30-35 | an empty or blank query is invalid |
| SearchForm.HebrewNameIsValid | components/SearchForm.tsx:20-23 | a query with two Hebrew letters in a row is always accepted |
| SearchForm.HandleSubmit | components/SearchForm.tsx:46-77 | a blank name is turned away with the enter-a-name message, an invalid one with the validation message, and otherwise the trimmed name is sent and tracked with its input type |
| TaxAuthority.TaxAuthorityToken | lib/tax_authority.ts:91-126 | no token without both credentials or when the exchange fails; with both credentials and a successful JSON answer, exactly the answer's `access_token`; a token only from such an answer |
| TaxAuthority.QueryMaamStatus | lib/tax_authority.ts:131-163 | a 404 answer means not registered and not active; any other answer counts only with a success status, and then it is taken as given |
| TaxAuthority.QueryNikuiStatus | lib/tax_authority.ts:168-197 | a 404 answer means no withholding registration; any other answer counts only with a success status, and then it is taken as given |
| TaxAuthority.CheckTaxStatus | lib/tax_authority.ts:44-78 | always for the number asked, stamped with the current time and the tax-authority source; the fallback without a token, otherwise the record built from the two answers |
| TaxAuthority.FallbackWithoutToken | lib/tax_authority.ts:204-218 | without a token the business is neither VAT-registered nor exempt, has no withholding registration, is active and has no name |
| TaxAuthority.ExemptIsNotRegistered | lib/tax_authority.ts:63-64 | with a token a business is VAT-exempt exactly when it is not VAT-registered, so a failed VAT request makes it exempt |
| TaxAuthority.NotFoundIsNotRegistered | lib/tax_authority.ts:148-184 | a business the VAT register does not know is unregistered, exempt, inactive and without a VAT number; one the withholding register does not know has no withholding registration |
| TaxAuthority.NikuiOnlyWhenReported | lib/tax_authority.ts:67-191 | withholding is reported exactly when there is a token and the withholding register answered with success that the business is registered |
| TaxAuthority.ExemptionThreshold | lib/tax_authority.ts:225-228 | a turnover of 100,583.99 qualifies for VAT exemption and 100,584 does not, and any lower turnover than a qualifying one also qualifies |
| TaxCertificates.CategoryList | lib/scrapers/tax_certificates.ts:26-35 | there are exactly eight withholding-tax categories |
| TaxCertificates.ExtractCertificateStatus | lib/scrapers/tax_certificates.ts:254-268 | unknown without text; otherwise, on the trimmed text, per regulations exactly when it holds either regulation word, no approval exactly when it holds neither but holds the word for none, unknown otherwise |
| TaxCertificates.StatusTextReadBack | lib/scrapers/tax_certificates.ts:254-268 | each of the three status texts is read back as its own status |
| TaxCertificates.ReadBackPerRegulations | lib/scrapers/tax_certificates.ts:262-263 | the per-regulations text is read back as per regulations |
| TaxCertificates.ReadBackNoApproval | lib/scrapers/tax_certificates.ts:264-265 | the no-approval text is read back as no approval |
| TaxCertificates.NegationIsNoApproval | lib/scrapers/tax_certificates.ts:261-266 | a Hebrew text that starts with the word for none and has neither regulation letter is read as no approval |
| TaxCertificates.ReadBackUnknown | lib/scrapers/tax_certificates.ts:267 | the unknown text is read back as unknown |
| TaxCertificates.NeitherWordIsUnknown | lib/scrapers/tax_certificates.ts:261-267 | a Hebrew text without the letters of either keyword is read as unknown |
| TaxCertificates.UntrimmedStatus | lib/scrapers/tax_certificates.ts:261 | a text that starts and ends with a Hebrew letter is not changed by trimming |
| TaxCertificates.FindDate | lib/scrapers/tax_certificates.ts:279 | the first place at or after the start where a DD/MM/YYYY date begins, or the end when there is none |
| TaxCertificates.ExtractDate | lib/scrapers/tax_certificates.ts:274-286 | nothing without text or without a DD/MM/YYYY date in it; otherwise the first such date, rewritten year first |
| TaxCertificates.IsoDateShape | lib/scrapers/tax_certificates.ts:282 | the rewritten date is ten characters, digits with dashes at places four and seven |
| TaxCertificates.DateRoundTrip | lib/scrapers/tax_certificates.ts:279-283 | a DD/MM/YYYY date comes back as YYYY-MM-DD with the same day, month and year |
| TaxCertificates.TrimmedOrNull | lib/scrapers/tax_certificates.ts:234-235 | a file number is kept, trimmed, exactly when it is not blank |
| TaxCertificates.ExtractCertificatesData | lib/scrapers/tax_certificates.ts:202-248 | the record of a results page: the trimmed name or the unknown name, bookkeeping approval exactly when its text says there is one, the status matching, the first expiration date, the trimmed file numbers, each of the eight categories read from its own element of the page, marked a success |
| TaxCertificates.EmptyBookkeepingIsNoApproval | lib/scrapers/tax_certificates.ts:214-215 | an empty bookkeeping text falls back to the unknown text and reports no approval, never an unknown status |
| TaxCertificates.AttemptOf | lib/scrapers/tax_certificates.ts:79-147 | a browser failure is thrown as it is, a non-blank error label is thrown with the tax-authority prefix, and a success is the page's record |
| TaxCertificates.FailureRecord | lib/scrapers/tax_certificates.ts:166-195 | the record after every attempt failed: not a success, no bookkeeping approval, every category unknown, the last error's message or the unknown-error text |
| TaxCertificates.ScrapeTaxCertificates | lib/scrapers/tax_certificates.ts:60-196 | the loop gives the first successful attempt's record or the failure record, after the waits of a retry run; the k-th wait is 2^(k+1) seconds |
| TaxCertificates.AllAttemptsFailed | lib/scrapers/tax_certificates.ts:149-195 | when every attempt fails the failure record comes back, carrying the last attempt's error |
| TaxCertificates.FirstPageReturned | lib/scrapers/tax_certificates.ts:134-147 | a first visit without an error label is the answer, with no retry |
| TaxCertificates.LimiterDelay | lib/scrapers/tax_certificates.ts:302 | the wait is never negative, covers what is left of the least gap, and is either zero or exactly that remainder |
| TaxCertificates.RateLimiter.constructor | lib/scrapers/tax_certificates.ts:295-297 | no request yet and a least gap of 2000 ms |
| TaxCertificates.RateLimiter.Wait | lib/scrapers/tax_certificates.ts:299-310 | waits what is left of the least gap since the last request and then records the time after the wait; the gap is unchanged |
| TaxCertificates.LimiterSpacing | lib/scrapers/tax_certificates.ts:299-310 | with a clock that does not go back, two successive returns of the wait are at least the least gap apart |
| TrainingCorpus.CollectVisit | scripts/prepare_training_dataset.py:74-97 | the files kept for one directory are exactly its readable files with an allowed extension, in listing order |
| TrainingCorpus.CollectProjectFiles | scripts/prepare_training_dataset.py:63-100 | the records are those of every visit of the pruned walk, in walk order, and the count is their number |
| TrainingCorpus.RecordsOfSnoc | scripts/prepare_training_dataset.py:74-97 | one more file adds exactly its own records at the end |
| TrainingCorpus.CollectedAppend | scripts/prepare_training_dataset.py:70-97 | the records of two runs of visits are the records of each, one after the other |
| TrainingCorpus.CollectedOne | scripts/prepare_training_dataset.py:74-97 | a single visit gives the records of its files |
| TrainingCorpus.RecordsOfMember | scripts/prepare_training_dataset.py:74-91 | a readable file with an allowed extension is recorded with its directory, name and content |
| TrainingCorpus.FilterFilesMember | scripts/prepare_training_dataset.py:70 | a file in a directory's listing is among the files of its visit |
| TrainingCorpus.WalkPruned | scripts/prepare_training_dataset.py:70-72 | the walk visits the starting directory and its files first, and every directory it visits lies below the start through names that are not excluded |
| TrainingCorpus.WalkSubdirsPruned | scripts/prepare_training_dataset.py:70-72 | the same for the visits below the kept subdirectories |
| TrainingCorpus.WalkSubdirsMember | scripts/prepare_training_dataset.py:70-72 | a record found below a kept subdirectory is found by the walk of the subdirectories |
| TrainingCorpus.CollectComplete | scripts/prepare_training_dataset.py:21-100 | every readable file with an allowed extension that lies under no excluded directory is collected, with its path |
| TrainingCorpus.CollectHere | scripts/prepare_training_dataset.py:74-91 | a readable file with an allowed extension in the directory itself is collected |
| TrainingCorpus.CollectBelow | scripts/prepare_training_dataset.py:70-72 | what is collected in a kept subdirectory is collected from its parent |
| TrainingCorpus.RecordsOfSound | scripts/prepare_training_dataset.py:74-91 | a record of a visit comes from one of its readable files with an allowed extension, under that visit's path |
| TrainingCorpus.CollectSound | scripts/prepare_training_dataset.py:21-100 | every collected record is a readable file with an allowed extension, listed at its path under kept directories only |
| TrainingCorpus.SubdirsSound | scripts/prepare_training_dataset.py:70-72 | the same for the records found below the subdirectories |
| TrainingCorpus.FirstSubdirListed | scripts/prepare_training_dataset.py:70-72 | a file listed in the first kept subdirectory is listed in the parent, one directory deeper |
| TrainingCorpus.LaterSubdirListed | scripts/prepare_training_dataset.py:70-72 | a file listed through a later child is listed through the whole listing |
| TrainingCorpus.ExtractUrlsSound | scripts/prepare_training_dataset.py:32-35 | every URL found starts with http:// or https://, runs on characters the pattern allows, and occurs in the text where the text ends or leaves the class right after it (the match is greedy) |
| TrainingCorpus.ParenthesisEndsUrl | scripts/prepare_training_dataset.py:34 | a closing parenthesis ends a URL: a text starting with a URL and `)` yields the URL without it first |
| TrainingCorpus.ImportantForMonotone | scripts/prepare_training_dataset.py:128-131 | with one more domain a URL is important exactly when it was already or contains that domain |
| TrainingCorpus.ExtractAndFetchUrls | scripts/prepare_training_dataset.py:102-149 | the URLs tried are distinct and are exactly the important URLs of the files; a page is kept for each of them, in that order, whose cleaned-up content is not empty |
| TrainingCorpus.GatherUrls | scripts/prepare_training_dataset.py:106-111 | the set gathered is the union of the URLs of every file |
| TrainingCorpus.ImportantUrls | scripts/prepare_training_dataset.py:116-131 | the URLs kept are distinct and are exactly those of the set that contain one of the important domains |
| TrainingCorpus.FetchPages | scripts/prepare_training_dataset.py:136-147 | one page per URL whose content is not empty, in order |
| TrainingCorpus.PagesForSound | scripts/prepare_training_dataset.py:140-146 | every page kept belongs to a tried URL, holds that URL's cleaned-up content, and is not empty |
| TrainingCorpus.PagesBySound | scripts/prepare_training_dataset.py:140-146 | the same for any way of producing a URL's content |
| TrainingCorpus.PagesForComplete | scripts/prepare_training_dataset.py:140-146 | every tried URL with non-empty content is kept with it |
| TrainingCorpus.PagesByComplete | scripts/prepare_training_dataset.py:140-146 | the same for any way of producing a URL's content |
| TrainingCorpus.StripAll | scripts/prepare_training_dataset.py:56 | every line is stripped and none is lost |
| TrainingCorpus.StrippedLine | scripts/prepare_training_dataset.py:56 | stripping a line introduces no line break |
| TrainingCorpus.CleanLinesShape | scripts/prepare_training_dataset.py:56-57 | the cleaned text splits back into exactly its kept lines, each non-empty and already stripped; no lines give the empty text |
| TrainingCorpus.KeptLinesClean | scripts/prepare_training_dataset.py:56 | every kept line is non-empty, stripped and free of line breaks |
| TrainingCorpus.StripIdempotent | scripts/prepare_training_dataset.py:56 | stripping twice is stripping once |
| TrainingCorpus.CleanLinesIdempotent | scripts/prepare_training_dataset.py:56-57 | cleaning a page's text twice is cleaning it once |
| TrainingCorpus.CreateTrainingDataset | scripts/prepare_training_dataset.py:151-208 | one record per file, then one per page, then one per question, each in input order and built from its own source item |
| TrainingCorpus.FileEntries | scripts/prepare_training_dataset.py:157-166 | one record per file, in order |
| TrainingCorpus.PageEntries | scripts/prepare_training_dataset.py:168-177 | one record per page, in order |
| TrainingCorpus.FaqEntries | scripts/prepare_training_dataset.py:199-205 | one record per question, in order |
| TrainingCorpus.EntryOutputs | scripts/prepare_training_dataset.py:159-177 | file and page records have an empty input and an output of at most 4000 characters that starts their content and is all of it when the content fits |
| TrainingCorpus.FaqOutputs | scripts/prepare_training_dataset.py:199-205 | every question's record has an empty input and an answer within 4000 characters |
| TrainingCorpus.BuildDataset | scripts/prepare_training_dataset.py:223-238 | the files are the collected ones; every page is for an important URL found in them and is not empty; the dataset is a record per file, then per page, then the four fixed questions, in order |
| TrainingDocument.CreateTrainingDataset | app/api/admin/training/document/route.ts:20-44 | nothing when the vector store cannot be read; otherwise one question per stored chunk of the document, in order, numbered from one, carrying the chunk's title and its content as the answer |
| TrainingDocument.DatasetSize | app/api/admin/training/document/route.ts:28-37 | as many items as the document has stored chunks, and every answer is the content of one of them |
| TrainingDocument.JsonlLines | app/api/admin/training/document/route.ts:70-72 | when no serialised item holds a line break, the JSONL text splits back into exactly the serialised items, in order |
| TrainingDocument.PostTrainingDocument | app/api/admin/training/document/route.ts:46-112 | 401 without a session, 500 for a body that is not JSON, 400 without a document id, 404 when the document has no chunks; otherwise the count and path are returned, the JSONL of the items is written, and one activity entry is appended to the stored log; something is written exactly when the reply is not an error |
| TrainingDocument.DatasetPathInjective | app/api/admin/training/document/route.ts:68 | two different document ids are written to two different dataset files |
| TrainingUrls.CiIndexFrom | app/api/admin/training/urls/route.ts:37-38 | the first place at or after the start where the pattern begins, ignoring case, or none when it begins nowhere |
| TrainingUrls.ElementAt | app/api/admin/training/urls/route.ts:37-44 | an element of the given tag at the start: its opening tag up to the first '>', its content made only of allowed characters, ended by the first closing tag after it |
| TrainingUrls.ElementAtComplete | app/api/admin/training/urls/route.ts:37-44 | every element match at the front of a text, with its opening tag ended by the first '>' and its content ended by the first closing tag, is the one found |
| TrainingUrls.OpeningTagEnd | app/api/admin/training/urls/route.ts:37-38 | the opening tag of a match ends at the first '>' after the tag name |
| TrainingUrls.ClosingTagFound | app/api/admin/training/urls/route.ts:37-38 | the content of a match ends at the first closing tag after the opening one |
| TrainingUrls.RemoveElements | app/api/admin/training/urls/route.ts:37-38 | removing elements never lengthens the text |
| TrainingUrls.NoElementUnchanged | app/api/admin/training/urls/route.ts:37-38 | a text without an opening tag of that name is left unchanged |
| TrainingUrls.StripTags | app/api/admin/training/urls/route.ts:39 | no tag is left, no '>' appears that was not in the text, and a leading '>' stays |
| TrainingUrls.NoTagUnchanged | app/api/admin/training/urls/route.ts:39 | a text without '<' is not changed by stripping tags |
| TrainingUrls.KeptPrefix | app/api/admin/training/urls/route.ts:39 | a text without '<' in front of another is kept as it is, and the rest is stripped on its own |
| TrainingUrls.TagBecomesSpace | app/api/admin/training/urls/route.ts:39 | a tag after a text without '<' is replaced by exactly one space, and what follows it is stripped on its own |
| TrainingUrls.TagFound | app/api/admin/training/urls/route.ts:39 | a tag ends at the first '>' after its '<' |
| TrainingUrls.SuffixMember | app/api/admin/training/urls/route.ts:39 | a character of a suffix is a character of the text |
| TrainingUrls.NoTagCons | app/api/admin/training/urls/route.ts:39 | putting a character in front of a tag-free text leaves it tag-free unless it opens a tag that the text closes |
| TrainingUrls.ScrapedContentShape | app/api/admin/training/urls/route.ts:36-48 | the stored content is at most 5000 characters, starts the page text, does not start with white space and never holds two white-space characters side by side |
| TrainingUrls.FindTitle | app/api/admin/training/urls/route.ts:44 | a title found occurs in the page and holds no line break |
| TrainingUrls.FindTitleLeftmost | app/api/admin/training/urls/route.ts:44 | the title found is the content of the leftmost title element whose content holds no line break |
| TrainingUrls.FindTitleFrom | app/api/admin/training/urls/route.ts:44 | a scan starting at a title element finds that element's content |
| TrainingUrls.FindTitleSkipTo | app/api/admin/training/urls/route.ts:44 | positions where no title element starts are passed over |
| TrainingUrls.FindTitleAbsent | app/api/admin/training/urls/route.ts:44 | without a title element anywhere, no title is found |
| TrainingUrls.Title | app/api/admin/training/urls/route.ts:44-45 | the trimmed title when the page has one, the URL otherwise |
| TrainingUrls.ScrapeUrl | app/api/admin/training/urls/route.ts:20-55 | a scrape exactly when the fetch succeeded with a success status; it holds the first 5000 characters of the page text and the page's title |
| TrainingUrls.Present | app/api/admin/training/urls/route.ts:77 | filtering never gives more scrapes than answers |
| TrainingUrls.PresentIff | app/api/admin/training/urls/route.ts:77 | a scrape is kept exactly when it is one of the answers |
| TrainingUrls.SuccessfulScrapes | app/api/admin/training/urls/route.ts:73-77 | at most ten scrapes and no more than URLs |
| TrainingUrls.Answers | app/api/admin/training/urls/route.ts:73-75 | one answer for each of the first ten URLs, each that URL's scrape |
| TrainingUrls.SuccessfulScrapesIff | app/api/admin/training/urls/route.ts:73-77 | the scrapes kept are exactly the successful answers of the first ten URLs |
| TrainingUrls.ChunksOf | app/api/admin/training/urls/route.ts:96-109 | a scrape gives one piece per started 500 characters |
| TrainingUrls.ContentsOf | app/api/admin/training/urls/route.ts:100 | the contents of the pieces, one per piece and in order |
| TrainingUrls.ChunksOfSliced | app/api/admin/training/urls/route.ts:96-109 | the pieces are consecutive slices of at most 500 characters that join back into the content; piece k has index k, the page title, the document id and the web-scraping source |
| TrainingUrls.ChunkScrape | app/api/admin/training/urls/route.ts:98-109 | the loop produces exactly the pieces of the scrape |
| TrainingUrls.AllChunksStep | app/api/admin/training/urls/route.ts:93-110 | one more scrape adds exactly its own pieces at the end |
| TrainingUrls.VectorizeScrapes | app/api/admin/training/urls/route.ts:93-110 | the stored list gets the pieces of every scrape appended, in order |
| TrainingUrls.PostTrainingUrls | app/api/admin/training/urls/route.ts:57-147 | 401 without a session, 500 for a body that is not JSON, 400 without a non-empty URL list, 500 when no URL could be scraped; otherwise the pieces are appended to the stored list, one activity entry to the log, and the counts of scraped and given URLs are returned, at most ten scraped; something is written exactly when the reply is not an error |
| UnifiedData.ActiveCases | lib/unified_data.ts:310 | the number of local cases whose status is active |
| UnifiedData.TotalDebt | lib/unified_data.ts:311 | the sum of every proceeding's debt, a missing amount counting as zero; never negative when no debt is |
| UnifiedData.SumFrom | lib/unified_data.ts:311 | the reduction from a position adds the debts from there on to what was summed so far |
| UnifiedData.SumNonNegativeIfAll | lib/unified_data.ts:311 | a sum of debts none of which is negative is not negative |
| UnifiedData.Prefer | lib/unified_data.ts:314-319 | the external figure when it is present and not zero, the local figure otherwise |
| UnifiedData.DataQualityBands | lib/unified_data.ts:400 | a score above 70 is high quality, one of 40 or below low, and a better score never gives a worse band |
| UnifiedData.Banking | lib/unified_data.ts:371-377 | the restricted flag as reported, the first record's restriction date if there is one, and one detail line per record |
| UnifiedData.RecentCases | lib/unified_data.ts:353-358 | the first five local cases, in order, each with its number, type, status and filing date |
| UnifiedData.CombinedLegal | lib/unified_data.ts:310-359 | active and total cases from the court search when it gives a non-zero figure, otherwise from the local cases; debt and proceedings from the execution search likewise, otherwise from the local proceedings; the five most recent local cases |
| UnifiedData.CombinedRisks | lib/unified_data.ts:390-397 | active cases, proceedings and a debt above 100,000 exactly when the combined figures show them; violating exactly for the violation text or code 18; a restricted account exactly when the bank reports it; bankruptcy exactly when the court search counts a bankruptcy case |
| UnifiedData.MapPostgreSQLToUnified | lib/unified_data.ts:300-404 | the company's identity and violation fields, the combined legal figures and the risks drawn from them, banking and tax summaries exactly when those sources answered, the quality band of the score, the stored owners in order, each with its own name, role and share, and none when none are stored, marked as a cache hit from the database |
| UnifiedData.LocalFiguresWithoutSources | lib/unified_data.ts:310-391 | without non-zero external figures the legal figures are the local counts and sums, and active cases are flagged exactly when a local case is active |
| UnifiedData.MapCheckIDToUnified | lib/unified_data.ts:409-462 | the mock record's number and name; a violating status gives the violation text, code 18 and the violating flag and nothing else is flagged; no legal figures; medium quality, from mock data, not a cache hit |
| UnifiedData.ViolationAgrees | lib/unified_data.ts:393-451 | on mock data the violating flag is set exactly when the violation fields say so, as the database mapping computes it |
| UnifiedData.PlaceholderHasNoRisk | lib/unified_data.ts:409-462 | the placeholder business generated for an unknown query raises no risk flag |
| VatDealer.InferVATStatus | lib/vat_dealer.ts:144-217 | nothing for a number not in the registry; a number whose decimal text starts with 5 is a VAT-registered limited company; any other is a licensed dealer exactly when its type mentions a partnership and exempt otherwise; the VAT number is the company number exactly when registered; active exactly for an active registry status, cancelled otherwise; bookkeeping unknown and no withholding |
| VatDealer.CompanyTypeIrrelevantForFive | lib/vat_dealer.ts:181-184 | for a number starting with 5 the company type changes nothing: it is always a VAT-registered limited company |
| VatDealer.InferenceIsDecisive | lib/vat_dealer.ts:178-197 | the inference never gives the unknown dealer type |
| VatDealer.GetVATDealerStatus | lib/vat_dealer.ts:37-83 | without a forced refresh a fresh cache row is returned as a cache hit; otherwise the inference from the registry marked as mock data and not a cache hit, or nothing when the registry does not know the number |
| VatDealer.ForcedRefreshIgnoresCache | lib/vat_dealer.ts:46-57 | a forced refresh gives the same answer whatever the cache holds |
| VatDealer.EnrichCompaniesWithVATStatus | lib/vat_dealer.ts:258-321 | every company is processed, counted as enriched when the registry has it and as failed otherwise |
| Retry.Pow2 | lib/scrapers/tax_certificates.ts:159 | a power of two is at least one |
| Retry.RunFrom | lib/checkid.ts:14-45 | a run from an attempt stops before the retry limit or at it; every attempt it passed over threw an error that does not stop the retries; it ends without an outcome exactly when it starts at or past the limit |
| Retry.RetryWithBackoff | lib/checkid.ts:14-45 | the loop's outcome and number of waits are those of the run, and the i-th wait is the base delay times 2^i plus that attempt's jitter |
| Retry.FirstSuccessReturned | lib/checkid.ts:20-22 | the first success before the limit, after retriable errors only, is returned at its attempt |
| Retry.FatalErrorThrown | lib/checkid.ts:25-30 | the first error that stops the retries is thrown at its attempt |
| Retry.LastErrorThrown | lib/checkid.ts:23-35 | when every attempt throws a retriable error, the last attempt's error is thrown |
| Retry.ReturnedComesFromACall | lib/checkid.ts:20-22 | a returned value is the value of a successful attempt before the limit |
| Retry.ReturnedAt | lib/checkid.ts:20-22 | the same for a run that starts at any attempt |
| Chunking.SlicedConcat | app/api/admin/documents/upload/route.ts:62-70 | the 500-character pieces put back together are the text |
| Chunking.SlicedPrefix | app/api/admin/documents/upload/route.ts:62-70 | the first m pieces put together are the first 500·m characters of the text, or all of it |
| Chunking.SlicedShape | app/api/admin/documents/upload/route.ts:62-70 | every piece holds between one and 500 characters, all but the last hold exactly 500, and only the empty text has no pieces |
| Whitespace.CollapseRuns | app/api/admin/training/urls/route.ts:40 | no two white-space characters are left side by side, every one left is a space, the empty text stays empty and the first character is kept or becomes a space |
| Whitespace.CollapseNoRun | app/api/admin/training/urls/route.ts:40 | a text without white space is not changed by collapsing |
| Whitespace.CollapseAround | app/api/admin/training/urls/route.ts:40 | a whole run of white space between two texts becomes exactly one space, and the texts on either side are collapsed on their own |
| Whitespace.TrimStartRun | app/api/admin/training/urls/route.ts:41 | trimming the start removes a leading run of white space and nothing after it |
| Whitespace.TrimStartAppend | app/api/admin/training/urls/route.ts:41 | trimming the start of a text that holds a non-white-space character leaves whatever follows that text untouched |
| Whitespace.ConsRun | app/api/admin/training/urls/route.ts:40 | a space in front of a collapsed text that does not start with white space keeps it collapsed |
| Whitespace.CollapseKeepsClass | app/api/admin/documents/upload/route.ts:38-40 | collapsing keeps every character within a class that contains the space |
| Whitespace.SuffixKeepsClass | app/api/admin/documents/upload/route.ts:38-40 | a suffix of a text within a class is within that class |
| Whitespace.ConsKeepsClass | app/api/admin/documents/upload/route.ts:38-40 | a character of a class in front of a text of that class keeps it within the class |
| Whitespace.TrimStartKeepsText | app/api/admin/documents/upload/route.ts:40 | trimming the start keeps every non-white-space character, in order |
| Whitespace.TrimEndKeepsText | app/api/admin/documents/upload/route.ts:40 | trimming the end keeps every non-white-space character, in order |
| Whitespace.CollapseKeepsText | app/api/admin/training/urls/route.ts:40 | collapsing keeps every non-white-space character, in order |
| Whitespace.SliceNoDoubleRun | app/api/admin/training/urls/route.ts:48 | a slice of a collapsed text is collapsed |
| Whitespace.TrimStartNoDoubleRun | app/api/admin/training/urls/route.ts:41 | dropping leading whitespace from a collapsed text leaves it collapsed |
| Whitespace.TrimEndNoDoubleRun | app/api/admin/training/urls/route.ts:41 | dropping trailing whitespace from a collapsed text leaves it collapsed |
| Whitespace.TrimNoDoubleRun | app/api/admin/training/urls/route.ts:41 | trimming a collapsed text leaves it collapsed |
| Whitespace.TrimKeepsSpacing | app/api/admin/training/urls/route.ts:40-41 | a collapsed and trimmed text has no white space at either end, is still collapsed, and has only spaces as white space |
| UrlScan.SchemeLen | scripts/prepare_training_dataset.py:34 | the scheme is eight characters for https://, seven for http://, and none otherwise |
| UrlScan.RunLen | scripts/prepare_training_dataset.py:34 | the longest run of class characters at the start |
| UrlScan.MatchAt | scripts/prepare_training_dataset.py:34 | a match at the start is a scheme followed by the longest non-empty run of class characters |
| UrlScan.SchemeOfPrefix | scripts/prepare_training_dataset.py:34 | a prefix that keeps the scheme has the same scheme |
| UrlScan.FindAllSound | scripts/prepare_training_dataset.py:35 | every match found is a well-formed URL of the class that occurs in the text |
| UrlScan.FindAll | scripts/prepare_training_dataset.py:35 | every match found is a well-formed URL: a scheme followed by at least one class character |
| UrlScan.FindAllMaximal | scripts/prepare_training_dataset.py:35 | every match found occurs in the text at a place where the text ends or leaves the class right after it |
| UrlScan.EndsRunShift | scripts/prepare_training_dataset.py:35 | a match of a suffix is a match of the whole text, further on by the length cut off |
| UrlScan.LeadingUrl | scripts/prepare_training_dataset.py:35 | a text that starts with a well-formed URL not followed by a class character yields that URL first |
| UrlScan.SchemeOfPrefixBack | scripts/prepare_training_dataset.py:34 | a text has the scheme of any prefix that has one |
| UrlScan.RunIsMaximal | scripts/prepare_training_dataset.py:34 | a run of class characters followed by a non-class character or the end is the longest run |

## Left out

- Networks, browsers and HTTP are not modelled. Every fetch, axios call and Playwright or Puppeteer session is an input: what the exchange answered, a page's text and element lookups, or a failure.
- TaxCertificates.EmptyBookkeepingIsNoApproval: a page's element texts are `Option<string>`, so `None` is an input. Playwright's `page.textContent` waits for a missing element and throws instead, so that attempt fails as a browser error (lib/scrapers/tax_certificates.ts:14, :214). The `|| 'לא ידוע'` default is reached only for an empty text.
- Databases are not modelled. Queries are maps or the rows they answered. An upsert is modelled by its effect on the stored rows. `upsertOsekMorsheh` first runs `validateHPNotFive` (lib/db/osek_morsheh.ts:39-47, :113), which throws for a number whose decimal text starts with 5; the import and the scraper model that refusal as an error and a failure. Whether the SQL call itself throws is an input. The SQL functions behind them (`is_vat_data_stale`, `upsert_osek_morsheh`, `upsert_vat_dealer`) cannot be seen, so staleness is an input flag.
- File reads and writes are not modelled. A stored JSON file is an input list (absent when it is missing or unreadable), and a written one is an output. `save_dataset`, the vector store, the history and the log files are covered this way. `JSON.stringify` of an item is a parameter (`serialise`).
- The clock is not modelled: every timestamp is the parameter `now`, or `nowMs` for milliseconds.
- Random draws are not modelled: `Math.random` (the placeholder numbers, the retry jitter and the mock checks) is a parameter.
- Foreign parsers are not modelled. `JSON.parse`, BeautifulSoup's `get_text`, csv-parse and `new Date(...)` are inputs or parameters; their results are given.
- Text encoding is simplified. Strings are sequences of code points. JavaScript's `length` and `slice` count UTF-16 units, so the 500-, 4000- and 5000-character limits differ from the source for characters outside the Basic Multilingual Plane.
- `toLowerCase` and `lower()` are modelled for ASCII only. Every keyword compared case-insensitively is ASCII or Hebrew, and Hebrew has no case.
- Floating point is simplified. `parseFloat` shares are reals, with `NaN` as absent. The company age in `calculateCompanyAge` is whole milliseconds divided with rounding down. `Math.round(dataPoints / 10 * 100)` is `dataPoints * 10`.
- `toLocaleString` formatting of debt amounts is rendered as plain decimal digits.
- Money amounts are whole numbers. In `lib/execution_office.ts` a proceeding's amount is `parseFloat(record.amount) || 0` and `totalDebt` is their JavaScript sum. In `lib/courts_scraper.ts` a case's `amount` and the result's `totalAmountClaimed` are JavaScript numbers (courts_scraper.ts:26, :189), and the 100,000 and 1,000,000 tiers compare them (:259-261). The model makes all of these integers, so fractional shekels, rounding of the sums, and an amount just above a tier boundary (100,000.5, say) are not captured.
- The average age of the debts is computed from record dates (`new Date`, the clock and `Math.round`). `SearchExecutionProceedings` takes it as the input `averageDebtAge` and passes it through unchanged.
- Console logging and progress printing are left out.
- Prompt and report wording is left out: `buildReportPrompt`, `generateMockReport` and the assistant's system prompt. The model's answers are inputs.
- Process launching is left out because it runs external programs: `generateTrustReportLocal`, `exportModelToGGUF`, `loadModelInOllama` and `apiGenerateTrustReport`, whose only rule besides the spawn is the availability check, `CheckModelAvailability`.
- Health and pricing probes are left out because they only report a remote service's reachability or fixed prices: `checkCheckIDHealth`, `getCheckIDPricing`, `checkGeminiHealth` and `checkDataSourcesHealth`.
- Orchestration is left out: `getBusinessData` and `searchCompaniesByName` in `lib/unified_data.ts`. They choose between a database lookup and the placeholder, through I/O that is not part of this model. Their mappings, `MapPostgreSQLToUnified` and `MapCheckIDToUnified`, are modelled.
- ReportRoute.CheckIdCompatible: the owners are handed on in the CheckID owner shape, which has a name, an id and a role but no share. The route passes the unified owner objects as they are (app/api/report/route.ts:61), so at run time they still carry `sharePercentage` and have no `idNumber`. The model gives each owner no id and leaves the share out.
- `getBusinessDetails` in `lib/checkid.ts` is one HTTP call through the retry loop. Its response mapping is `MapCheckIDResponse`.
- Database helpers of `lib/db/osek_morsheh.ts` are left out because they are SQL only: `deleteOsekMorsheh`, `searchOsekMorsheh` and `getOsekStats`.
- The collector's lookups are left out because they draw random mock answers: `checkTaxAuthorityVAT`, `scrapeCompaniesRegistry` and `processHP` in `scripts/collect_osek_morsheh_database.ts`. The worker pool is left out for the same reason. The numbers that are generated and the way they are split between the workers are modelled: `SplitIntoChunks` states each worker's slice.
- Concurrency is left out. `Promise.all` fan-out is modelled as the sequential per-item rule: the URL scraping of the training route, the source lookups of `getBusinessData`, and the workers.
- `parseHotzaaResults` and `parseCourtSearchResults` return no records in the source. The model treats the portals' records as inputs instead.
- The `catch` branches of `searchExecutionProceedings` and `searchLegalCases` (`getEmptyExecutionResult`, `getEmptyCourtResult`) are left out. The lookups they guard catch their own errors and are inputs here, so nothing reaches those branches.
- The session check of the admin routes reads a cookie and the clock. It is the input flag `authenticated`; `AdminChat.SessionExpiry` states the expiry rule.
- The upload route's file storage is left out: the written documents list and the generated ids. Its text extraction, URL listing and chunking are modelled.
- `ExtractAndFetchUrls`: the important URLs are tried in the iteration order of a Python set, which the script does not fix. The model takes them in an arbitrary order that it returns, so the page order is stated relative to that order.
- LookupKey: the report route also passes the request's `businessName` as an option of `getBusinessData`. That option is not declared in the options of `getBusinessData` (lib/unified_data.ts:133-140) and its body does not read it, so the model's lookup is a function of the key alone.
- DatasetPath: the source joins `process.cwd()`, `data` and `training` (app/api/admin/training/document/route.ts:66-69) and returns and logs that absolute path. The model leaves out the working directory, so its paths are relative to it. The same holds for every other `data/…` path in the model. Also, `path.join` normalises the path, so a `documentId` holding `..` or a separator names a file outside `data/training`. The model joins the strings without normalising, and `DatasetPathInjective` holds for the joined text only.
- `CreateTrainingDataset` (the corpus one) takes the fixed question list as the parameter `faq`. `BuildDataset` passes the script's four questions, `Faq`.
- BookkeepingRisk.ViolationFactor: the contract states only that the indicator gives at most one factor, with a positive impact. Its points are stated by the lemma `BookkeepingRisk.ViolationCodeRule`.
- BookkeepingRisk.LegalFactor: the contract states only that the indicator gives at most one factor, with a positive impact. Its cap and its thresholds, not every value in between, are stated by the lemma `BookkeepingRisk.IndicatorCaps`.
- BookkeepingRisk.ExecutionFactor: the contract states only that the indicator gives at most one factor, with a positive impact. Its cap and its thresholds, not every value in between, are stated by the lemma `BookkeepingRisk.IndicatorCaps`.
- BookkeepingRisk.BankFactor: the contract states only that the indicator gives at most one factor, with a positive impact. Its points are stated by the lemma `BookkeepingRisk.FlagPoints`.
- BookkeepingRisk.AgeFactor: the contract states only that the indicator gives at most one factor, with a positive impact. Its points are stated by the lemma `BookkeepingRisk.AgeBands`.
- BookkeepingRisk.SingleOwnerFactor: the contract states only that the indicator gives at most one factor, with a positive impact. Its points are stated by the lemma `BookkeepingRisk.FlagPoints`.
- BookkeepingRisk.AbsentOwnerFactor: the contract states only that the indicator gives at most one factor, with a positive impact. Its points are stated by the lemma `BookkeepingRisk.FlagPoints`.
- BookkeepingRisk.WithholdingFactor: the contract states only that the indicator gives at most one factor, with a positive impact. Its cap and its thresholds, not every value in between, are stated by the lemma `BookkeepingRisk.IndicatorCaps`.
- BookkeepingRisk.DebtFactor: the contract states only that the indicator gives at most one factor, with a positive impact. Its points are stated by the lemma `BookkeepingRisk.FlagPoints`.
- BookkeepingRisk.StatusFactor: the contract states only that the indicator gives at most one factor, with a positive impact. Its points are stated by the lemma `BookkeepingRisk.FlagPoints`.
- TrainingUrls.RemoveElements: the contract bounds only the length of the result. `TrainingUrls.NoElementUnchanged` states that text without the element is unchanged; what is removed is defined by the body's element matcher, `ElementAt`.
- TrainingUrls.Present: the contract bounds only the length. Its contents are stated by `TrainingUrls.PresentIff`.
- TrainingUrls.SuccessfulScrapes: the contract bounds only the length. Its contents are stated by `TrainingUrls.SuccessfulScrapesIff`.
- TrainingUrls.ChunksOf: the contract states only the number of pieces. Their contents are stated by `TrainingUrls.ChunksOfSliced`.

## Findings

| source | as written | input that shows it | evidently intended | confidence | as-written member | corrected member |
|---|---|---|---|---|---|---|
| lib/gemini.ts:107-108 | the prompt counts missing withholding certificates over `taxCertificates.withholdingTax`, but the scraper's record (lib/scrapers/tax_certificates.ts:26-35) names that field `withholdingTaxCategories`, so the count is always 0 | a record whose eight categories are all 'אין אישור' counts 0 | count the categories whose status is 'אין אישור' (8 for that record) | not executed | Gemini.WithholdingTaxIssuesAsWritten (Gemini.WithholdingTaxIssuesAlwaysZero, Gemini.WithholdingFindingWitness) | Gemini.WithholdingTaxIssues |
| scripts/download_osek_from_datagov.ts:124-136 | the filter tests the trimmed text (nine characters, first not `5`), but the record is imported under `parseInt` of that text, and the upsert's `validateHPNotFive` (lib/db/osek_morsheh.ts:39-47) tests the decimal text of the parsed number. A zero-padded text loses its zero in between | the number text `051234567`: kept by the filter, parsed to 51234567, refused as a company's by the upsert, counted as an error | the kept nine-character text decides, so a record the filter keeps is not refused afterwards | not executed | DownloadDatagov.LeadingZeroRefused (DownloadDatagov.OutcomeOf) | DownloadDatagov.OutcomeOnText (DownloadDatagov.KeptNeverRefusedOnText) |

The import keeps the behaviour as written: `ImportToDatabase` and `OutcomeOf` refuse the zero-padded number, as the upsert does. `OutcomeOnText` is the corrected branch, with its property proved beside it; nothing else depends on it.
