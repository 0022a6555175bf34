# Invoice scanner: IBAN pipeline model

This project models the core of an invoice scanning service in Dafny. The service takes a URL and
downloads the PDF behind it. It extracts candidate IBANs from the document text and validates them
(the configured pattern and lengths, the iban4j library, and a hand-written MOD 97-10 fallback). It
rejects any IBAN found in a blacklist store. Every failure becomes an HTTP answer of a
global exception handler. The modules follow the service classes:

- `Outcomes`, `Failures`: Option/Result, and the service's exception kinds (`InvalidUrl`,
  `PdfNotFound`, `PdfProcessing`, `NoIbanFound`, `InvalidIbans`, `BlacklistedFound`,
  `IllegalArgument`, `IOError`, `Runtime`).
- `Chars`, `Lists`: the ASCII character classes and the `java.util` list operations the services rely
  on (regex classes, `String.join`, `Integer.toString`, `removeAll`, `Stream.distinct`).
- `Mod97`: decimal numerals, `new BigInteger(String)`, and the MOD 97-10 check of ISO/IEC 7064.
- `IbanValidation`: `IbanValidationService`.
- `IbanExtraction`, `IbanPrinted`, `IbanDocument`: `IbanExtractionService`. This covers the regular
  expression as a match relation and a proved scanner for it, the text-level and document-level
  extraction, and the service's own MOD-97 check. It also proves that an IBAN printed in groups of
  four is found.
- `Blacklist`: `BlacklistedIbanCheckService`, `BlacklistedIbanService` and the repository behind them,
  as a class whose entries the services read and extend.
- `PdfDownload`: `PdfDownloadService`. The URL pre-check is a function. The stream, the temporary
  file and the server are classes. The buffer copy loop is a method proved against the bytes of
  the stream.
- `TaskOrchestrator`: `TaskOrchestratorService.processPdfForIbans`. Its collaborators are function
  parameters, and each run records the calls it made.
- `ExceptionHandler`: `GlobalExceptionHandler`.
- `*Examples` modules: the scenarios of the repository's unit tests, stated as lemmas and methods
  against the model.

## Model

| member | source | states |
|---|---|---|
| Mod97.ParseBigInteger | src/main/java/com/company/invoice_scanner_service/service/iban/IbanValidationService.java:111-114 | `new BigInteger(s)` parses exactly an optional sign followed by at least one digit; for a digit string the value is the numeral's value |
| Mod97.ParseIntToDecimal | src/main/java/com/company/invoice_scanner_service/service/iban/IbanExtractionService.java:120-131 | parsing what `Integer.toString` writes gives the number back, for every int |
| Mod97.NatToDecimalValue | src/main/java/com/company/invoice_scanner_service/service/iban/IbanValidationService.java:100 | the decimal digits appended for a natural number read back as that number |
| Mod97.NumeralConcat | src/main/java/com/company/invoice_scanner_service/service/iban/IbanValidationService.java:95-103 | the numeral built by appending reads as the first part shifted by the second's length plus the second |
| Mod97.PiecewiseIsRemainder | src/main/java/com/company/invoice_scanner_service/service/iban/IbanValidationService.java:111 | the digit-by-digit remainder of ISO/IEC 7064 equals the remainder of the whole BigInteger modulo 97 |
| Mod97.Mod97CheckOfDigits | src/main/java/com/company/invoice_scanner_service/service/iban/IbanValidationService.java:109-116 | on an all-digit numeral, `mod97Check` holds exactly when the remainder is 1 |
| Mod97.Mod97Check | src/main/java/com/company/invoice_scanner_service/service/iban/IbanValidationService.java:109-116 | acceptance needs a numeral `new BigInteger` parses; on a digit string it holds exactly when the value is 1 modulo 97 |
| Mod97.SubstitutionChangesRemainder | src/main/java/com/company/invoice_scanner_service/service/iban/IbanValidationService.java:109-116 | replacing a block of the numeral by one of equal length whose value differs by less than 97 always changes the remainder |
| IbanValidation.Sanitize | src/main/java/com/company/invoice_scanner_service/service/iban/IbanValidationService.java:45 | the sanitised IBAN holds no regex whitespace and no lower-case letter, and is no longer than the input |
| IbanValidation.SanitizeConcat | src/main/java/com/company/invoice_scanner_service/service/iban/IbanValidationService.java:45 | sanitising distributes over concatenation |
| IbanValidation.SanitizeFixed | src/main/java/com/company/invoice_scanner_service/service/iban/IbanValidationService.java:45 | a string without whitespace and lower case is left unchanged |
| IbanValidation.SanitizeIdempotent | src/main/java/com/company/invoice_scanner_service/service/iban/IbanValidationService.java:45 | sanitising twice is sanitising once |
| IbanValidation.IbanDigits | src/main/java/com/company/invoice_scanner_service/service/iban/IbanValidationService.java:94-104 | on A-Z/0-9 the conversion yields only digits and is at least as long as its input |
| IbanValidation.BlockShape | src/main/java/com/company/invoice_scanner_service/service/iban/IbanValidationService.java:97-101 | a digit is appended as itself; a letter as two digits worth its alphabet position plus ten |
| IbanValidation.IbanDigitsConcat | src/main/java/com/company/invoice_scanner_service/service/iban/IbanValidationService.java:96-102 | the conversion distributes over concatenation |
| IbanValidation.IbanDigitsOfDigits | src/main/java/com/company/invoice_scanner_service/service/iban/IbanValidationService.java:97-98 | digits pass through the conversion unchanged |
| IbanValidation.ConvertIbanToDigits | src/main/java/com/company/invoice_scanner_service/service/iban/IbanValidationService.java:94-104 | the StringBuilder loop returns the conversion of the whole IBAN |
| IbanValidation.Rearranged | src/main/java/com/company/invoice_scanner_service/service/iban/IbanValidationService.java:84 | the rearranged IBAN is the rotation left by four: same length, the input from position 4 on comes first and the input's first four characters come last |
| IbanValidation.FilterValid | src/main/java/com/company/invoice_scanner_service/service/iban/IbanValidationService.java:34-36 | the stream filter keeps only IBANs of the input and no more of them; every exception it lets through is a RuntimeException: iban4j's check-digit error or the fallback's substring error |
| IbanValidation.IsValidIbanChecksum | src/main/java/com/company/invoice_scanner_service/service/iban/IbanValidationService.java:83-87 | the fallback throws exactly on fewer than four characters |
| IbanValidation.IsValidIban | src/main/java/com/company/invoice_scanner_service/service/iban/IbanValidationService.java:44-69 | acceptance implies the basic format holds and iban4j accepted the IBAN or did not know its country; it throws exactly past the basic format when iban4j rejects the check digits (InvalidCheckDigitException is not caught) or the fallback gets fewer than four characters, and every throw is a RuntimeException |
| IbanValidation.ValidateIbans | src/main/java/com/company/invoice_scanner_service/service/iban/IbanValidationService.java:27-37 | a null or empty list gives an empty list |
| IbanValidation.FilterValidKeepsOrder | src/main/java/com/company/invoice_scanner_service/service/iban/IbanValidationService.java:34-36 | the result is a subsequence of the original, unsanitised input |
| IbanValidation.FilterValidCounts | src/main/java/com/company/invoice_scanner_service/service/iban/IbanValidationService.java:34-36 | each IBAN passing `isValidIban` is kept as often as it occurs, every other one is dropped |
| IbanValidation.FilterValidFailure | src/main/java/com/company/invoice_scanner_service/service/iban/IbanValidationService.java:34-36 | the filter throws exactly when some element's check throws, and then with the first such failure |
| IbanValidation.FilterValidDropsOne | src/main/java/com/company/invoice_scanner_service/service/iban/IbanValidationService.java:34-36 | a single rejected IBAN leaves an empty list |
| IbanValidation.FilterValidKeepsPair | src/main/java/com/company/invoice_scanner_service/service/iban/IbanValidationService.java:34-36 | two accepted IBANs are both returned, in order |
| IbanValidation.FilterValidDropsMiddle | src/main/java/com/company/invoice_scanner_service/service/iban/IbanValidationService.java:34-36 | a rejected IBAN between two accepted ones is dropped; the others keep their order |
| IbanValidation.FilterValidDropsPair | src/main/java/com/company/invoice_scanner_service/service/iban/IbanValidationService.java:34-36 | two rejected IBANs leave an empty list |
| IbanValidation.ValidityDependsOnSanitized | src/main/java/com/company/invoice_scanner_service/service/iban/IbanValidationService.java:45-48 | whitespace and case make no difference to the verdict |
| IbanValidation.BasicFormatDecidesFirst | src/main/java/com/company/invoice_scanner_service/service/iban/IbanValidationService.java:48-51 | a failed basic format gives false whatever iban4j would answer |
| IbanValidation.LibraryVerdictDecides | src/main/java/com/company/invoice_scanner_service/service/iban/IbanValidationService.java:53-68 | past the basic format, iban4j's acceptance gives true, its format error gives false, its check-digit error propagates as a throw, and an unsupported country gives exactly the manual checksum's answer |
| IbanValidation.UnsupportedCountryFallsBack | src/main/java/com/company/invoice_scanner_service/service/iban/IbanValidationService.java:57-64 | for an unsupported country and a sanitised IBAN of at least four characters of [A-Z0-9], the answer is true exactly when the MOD 97-10 remainder of the rearranged, converted IBAN is 1, and nothing is thrown |
| IbanValidation.FallbackIsMod97 | src/main/java/com/company/invoice_scanner_service/service/iban/IbanValidationService.java:57-64 | on A-Z/0-9 the fallback's numeral always parses and the fallback answers "remainder modulo 97 is 1" |
| IbanValidation.ConfiguredPatternShape | src/main/java/com/company/invoice_scanner_service/service/iban/IbanValidationService.java:74-77 | whatever the configured pattern `^[A-Z]{2}\d{2}[A-Z0-9]+$` accepts is A-Z/0-9 and at least four long |
| IbanValidation.ConfiguredPatternThrowsOnlyOnCheckDigit | src/main/java/com/company/invoice_scanner_service/service/iban/IbanValidationService.java:53-68 | with that pattern, the fallback numeral always parses (the NumberFormatException branch is unreachable), and `isValidIban` throws exactly when the IBAN passes the basic format and iban4j rejects its check digits |
| IbanValidation.ValidateIbansFailures | src/main/java/com/company/invoice_scanner_service/service/iban/IbanValidationService.java:27-37 | when every configured length is at least four, `validateIbans` throws exactly when some IBAN in the list passes the basic format and iban4j rejects its check digits |
| IbanValidation.SingleSubstitutionDetected | src/main/java/com/company/invoice_scanner_service/service/iban/IbanValidationService.java:83-87 | an IBAN and the same IBAN with one digit replaced by another digit, or one letter by another letter, never both pass the fallback |
| IbanValidation.CheckDigitsIso13616 | src/main/java/com/company/invoice_scanner_service/service/iban/IbanValidationService.java:83-87 | the fallback accepts exactly the check digits ISO 13616-1 computes: 98 minus the remainder of BBAN, country code and 00 |
| IbanExtraction.Normalize | src/main/java/com/company/invoice_scanner_service/service/iban/IbanExtractionService.java:72 | same length, and each tab, line feed and carriage return becomes a space; every other character is kept |
| IbanExtraction.NormalizeSpec | src/main/java/com/company/invoice_scanner_service/service/iban/IbanExtractionService.java:72 | no line separator survives, and normalising is idempotent |
| IbanExtraction.RemoveSpaces | src/main/java/com/company/invoice_scanner_service/service/iban/IbanExtractionService.java:77 | the result holds exactly the non-space characters of the input |
| IbanExtraction.RemoveSpacesConcat | src/main/java/com/company/invoice_scanner_service/service/iban/IbanExtractionService.java:77 | removing spaces distributes over concatenation |
| IbanExtraction.LongestEnd | src/main/java/com/company/invoice_scanner_service/service/iban/IbanExtractionService.java:28-29 | the greedy match at a start ends at the largest end at which the regular expression matches, and there is no end when none matches |
| IbanExtraction.NextMatch | src/main/java/com/company/invoice_scanner_service/service/iban/IbanExtractionService.java:76 | `find()` returns the first start with a match and that match's end; no earlier start matches |
| IbanExtraction.GroupsAt | src/main/java/com/company/invoice_scanner_service/service/iban/IbanExtractionService.java:28-29 | the groups part of the pattern reaches an end exactly as the run-of-[A-Z0-9] characterisation says |
| IbanExtraction.RunsEndSpec | src/main/java/com/company/invoice_scanner_service/service/iban/IbanExtractionService.java:28-29 | walking the runs returns the longest end that the groups reach with `\b` there |
| IbanExtraction.MatchAtRuns | src/main/java/com/company/invoice_scanner_service/service/iban/IbanExtractionService.java:28-29 | the match at a start is two letters and two digits followed by the walk over the runs |
| IbanExtraction.ScanRun | src/main/java/com/company/invoice_scanner_service/service/iban/IbanExtractionService.java:28-29 | the loop stops at the end of the run of [A-Z0-9] |
| IbanExtraction.WalkRuns | src/main/java/com/company/invoice_scanner_service/service/iban/IbanExtractionService.java:28-29 | the loop over the runs with eight units returns the walk's longest end |
| IbanExtraction.LongestMatchAt | src/main/java/com/company/invoice_scanner_service/service/iban/IbanExtractionService.java:28-29 | the scanner returns the greedy match's end at a start |
| IbanExtraction.Find | src/main/java/com/company/invoice_scanner_service/service/iban/IbanExtractionService.java:76 | the search loop returns what `find()` returns |
| IbanExtraction.ExtractionChecksum | src/main/java/com/company/invoice_scanner_service/service/iban/IbanExtractionService.java:111-136 | acceptance implies a non-null string of at least four characters |
| IbanExtraction.IsValidIbanMod97 | src/main/java/com/company/invoice_scanner_service/service/iban/IbanExtractionService.java:111-136 | the StringBuilder loop and BigInteger test answer the extraction check |
| IbanExtraction.ChecksumsAgree | src/main/java/com/company/invoice_scanner_service/service/iban/IbanExtractionService.java:111-136 | on A-Z/0-9 of at least four characters, the extraction check and the validation fallback agree |
| IbanExtraction.NumericIbanOfUpperAlnum | src/main/java/com/company/invoice_scanner_service/service/iban/IbanExtractionService.java:120-127 | on A-Z/0-9 the extraction's numeral equals the validation service's |
| IbanExtraction.NumericIban | src/main/java/com/company/invoice_scanner_service/service/iban/IbanExtractionService.java:120-127 | every character contributes at least one character to the numeral |
| IbanExtraction.NumericIbanWithoutLetters | src/main/java/com/company/invoice_scanner_service/service/iban/IbanExtractionService.java:120-127 | a string without letters is its own numeral: only letters are expanded |
| IbanExtraction.ExtractionChecksumIgnoresCase | src/main/java/com/company/invoice_scanner_service/service/iban/IbanExtractionService.java:122-123 | the extraction check accepts a string exactly when it accepts its upper-case form |
| IbanExtraction.ExtractIbansFromText | src/main/java/com/company/invoice_scanner_service/service/iban/IbanExtractionService.java:69-84 | the find loop returns the set of matches, spaces removed, that pass the check |
| IbanExtraction.KeptFromIsFilter | src/main/java/com/company/invoice_scanner_service/service/iban/IbanExtractionService.java:76-82 | the set holds exactly the candidates that pass the check |
| IbanExtraction.CandidatesFrom | src/main/java/com/company/invoice_scanner_service/service/iban/IbanExtractionService.java:76-77 | no candidate the find() loop produces holds a space |
| IbanExtraction.KeptFrom | src/main/java/com/company/invoice_scanner_service/service/iban/IbanExtractionService.java:76-82 | every string the loop keeps passes the extraction checksum and holds no space |
| IbanExtraction.TextIbans | src/main/java/com/company/invoice_scanner_service/service/iban/IbanExtractionService.java:69-84 | every IBAN found in a text passes the extraction checksum and holds no space |
| IbanExtraction.MatchShape | src/main/java/com/company/invoice_scanner_service/service/iban/IbanExtractionService.java:28-29 | every match, spaces removed, is two letters, two digits and 1 to 32 characters of [A-Z0-9] |
| IbanExtraction.TextIbansSpec | src/main/java/com/company/invoice_scanner_service/service/iban/IbanExtractionService.java:69-84 | an IBAN is returned iff it is a despaced match of the normalised text passing the check; each one has the candidate shape and passes the validation fallback |
| IbanExtraction.NoPrefixNoMatch | src/main/java/com/company/invoice_scanner_service/service/iban/IbanExtractionService.java:28-29 | a text in which no two letters are followed by two digits yields no candidate |
| IbanPrinted.RemoveSpacesOfPrinted | src/main/java/com/company/invoice_scanner_service/service/iban/IbanExtractionService.java:77 | removing the spaces of an IBAN printed in groups of four gives the IBAN back |
| IbanPrinted.RunsEndOfGroups | src/main/java/com/company/invoice_scanner_service/service/iban/IbanExtractionService.java:28-29 | the walk over printed groups followed by spaces reaches the end of the last group |
| IbanPrinted.PrintedMatchAt | src/main/java/com/company/invoice_scanner_service/service/iban/IbanExtractionService.java:28-29 | a printed IBAN after a non-word character and before spaces is the longest match at its start |
| IbanPrinted.PrintedFound | src/main/java/com/company/invoice_scanner_service/service/iban/IbanExtractionService.java:76 | `find()` from 0 finds the printed IBAN and nothing after it |
| IbanPrinted.SingleMatch | src/main/java/com/company/invoice_scanner_service/service/iban/IbanExtractionService.java:76-82 | one match and nothing after it gives exactly that candidate |
| IbanPrinted.PrintedCandidates | src/main/java/com/company/invoice_scanner_service/service/iban/IbanExtractionService.java:69-84 | a line ending with a printed IBAN, then blanks, yields exactly that candidate, kept iff it passes the check |
| IbanPrinted.PrintedIbanExtracted | src/main/java/com/company/invoice_scanner_service/service/iban/IbanExtractionService.java:69-84 | with a valid check number the printed IBAN is extracted, and nothing else is |
| IbanDocument.RegionChunks | src/main/java/com/company/invoice_scanner_service/service/iban/IbanExtractionService.java:98-103 | the region's text is scanned exactly when it is neither null nor empty; an IOException gives no texts |
| IbanDocument.PageChunks | src/main/java/com/company/invoice_scanner_service/service/iban/IbanExtractionService.java:50-56 | a page throws exactly when its page text or its region read throws |
| IbanDocument.ChunksIbansSpec | src/main/java/com/company/invoice_scanner_service/service/iban/IbanExtractionService.java:46-56 | the set of IBANs is exactly the union over the texts scanned |
| IbanDocument.ChunksIbans | src/main/java/com/company/invoice_scanner_service/service/iban/IbanExtractionService.java:46-56 | every IBAN of the union passes the extraction checksum |
| IbanDocument.PagesChunks | src/main/java/com/company/invoice_scanner_service/service/iban/IbanExtractionService.java:49-57 | n pages that all read yield at least n texts |
| IbanDocument.DocumentChunks | src/main/java/com/company/invoice_scanner_service/service/iban/IbanExtractionService.java:38-61 | every failure is PdfProcessingException; success needs a loaded, unencrypted file and yields at least one text for the whole document and one per page |
| IbanDocument.DocumentIbans | src/main/java/com/company/invoice_scanner_service/service/iban/IbanExtractionService.java:34-64 | every failure is PdfProcessingException, and every returned IBAN passes the extraction checksum |
| IbanDocument.PagesFailure | src/main/java/com/company/invoice_scanner_service/service/iban/IbanExtractionService.java:49-57 | the page loop throws exactly when one of its pages throws |
| IbanDocument.PagesChunksSpec | src/main/java/com/company/invoice_scanner_service/service/iban/IbanExtractionService.java:49-57 | otherwise the texts scanned are those of each page, page after page |
| IbanDocument.FailureStays | src/main/java/com/company/invoice_scanner_service/service/iban/IbanExtractionService.java:49-61 | once a page throws, the scan of any longer prefix throws too |
| IbanDocument.DocumentFailure | src/main/java/com/company/invoice_scanner_service/service/iban/IbanExtractionService.java:38-61 | the document fails iff it is unloadable, encrypted, or some read throws; encryption and read errors get their own messages |
| IbanDocument.DocumentIbansSpec | src/main/java/com/company/invoice_scanner_service/service/iban/IbanExtractionService.java:44-57 | the IBANs are exactly those of the whole text, every page text and every non-empty region text |
| IbanDocument.DocumentIbansValid | src/main/java/com/company/invoice_scanner_service/service/iban/IbanExtractionService.java:34-64 | every IBAN returned has the candidate shape and passes the validation fallback |
| IbanDocument.ExtractIbansFromAnnotations | src/main/java/com/company/invoice_scanner_service/service/iban/IbanExtractionService.java:89-106 | the region's IBANs, or the IOException |
| IbanDocument.ScanPage | src/main/java/com/company/invoice_scanner_service/service/iban/IbanExtractionService.java:50-56 | one turn of the page loop adds the IBANs of the page text and its region, or throws |
| IbanDocument.ScanPages | src/main/java/com/company/invoice_scanner_service/service/iban/IbanExtractionService.java:49-57 | the page loop collects the union over all pages, or stops at the first IOException |
| IbanDocument.SetToList | src/main/java/com/company/invoice_scanner_service/service/iban/IbanExtractionService.java:63 | `new ArrayList<>(set)` lists every element exactly once |
| IbanDocument.ExtractIbans | src/main/java/com/company/invoice_scanner_service/service/iban/IbanExtractionService.java:34-64 | fails exactly as the document model says; otherwise a duplicate-free list of exactly the document's IBANs |
| Lists.WithoutSpec | src/main/java/com/company/invoice_scanner_service/service/iban/BlacklistedIbanCheckService.java:31 | `removeAll` keeps exactly the elements not in the removed list, in order and with their multiplicities |
| Lists.DistinctSpec | src/main/java/com/company/invoice_scanner_service/service/TaskOrchestratorService.java:47 | `distinct()` returns every element once, as a subsequence of the input; empty iff the input is |
| Lists.DistinctSnoc | src/main/java/com/company/invoice_scanner_service/service/TaskOrchestratorService.java:47 | `distinct()` keeps first-occurrence order: one more element at the end is appended to the result unless it occurred before |
| Lists.SubsequenceNoDuplicates | src/main/java/com/company/invoice_scanner_service/service/iban/IbanValidationService.java:34-36 | filtering a duplicate-free list cannot create duplicates |
| Blacklist.IbansOfSpec | src/main/java/com/company/invoice_scanner_service/service/iban/BlacklistedIbanCheckService.java:28-30 | the mapped list holds exactly the IBANs of the found entries |
| Blacklist.IbansOf | src/main/java/com/company/invoice_scanner_service/service/iban/BlacklistedIbanCheckService.java:28-30 | one IBAN per found entry, position by position |
| Blacklist.Reconciled | src/main/java/com/company/invoice_scanner_service/service/iban/BlacklistedIbanCheckService.java:27-33 | the exception reports one IBAN per found entry, and its valid list holds exactly the input IBANs that are not reported |
| Blacklist.Repository.ExistsByIban | src/main/java/com/company/invoice_scanner_service/repository/BlacklistedIbanRepository.java:20 | true exactly when the IBAN is among the stored entries' IBANs |
| Blacklist.EntriesIn | src/main/java/com/company/invoice_scanner_service/repository/BlacklistedIbanRepository.java:13 | the lookup returns exactly the stored entries whose IBAN is in the list |
| Blacklist.Repository.FindByIbanIn | src/main/java/com/company/invoice_scanner_service/repository/BlacklistedIbanRepository.java:13 | one batched query returns the matching entries and counts one lookup |
| Blacklist.Repository.Save | src/main/java/com/company/invoice_scanner_service/service/iban/BlacklistedIbanService.java:45-49 | a new entry gets the next generated id and is appended; the id counter advances |
| Blacklist.RemoveAll | src/main/java/com/company/invoice_scanner_service/service/iban/BlacklistedIbanCheckService.java:31 | the in-place compaction leaves the elements not removed at the front, in order |
| Blacklist.CheckForBlacklistedIbans | src/main/java/com/company/invoice_scanner_service/service/iban/BlacklistedIbanCheckService.java:24-35 | one lookup, then no failure when nothing is blacklisted, else the exception with both lists |
| Blacklist.ReconciledPartition | src/main/java/com/company/invoice_scanner_service/service/iban/BlacklistedIbanCheckService.java:27-33 | an input IBAN is reported blacklisted iff stored and kept valid iff not; the valid list keeps order and multiplicities |
| Blacklist.ReconciledOk | src/main/java/com/company/invoice_scanner_service/service/iban/BlacklistedIbanCheckService.java:27 | no exception iff no input IBAN is stored; an empty input never fails |
| Blacklist.AllBlacklisted | src/main/java/com/company/invoice_scanner_service/service/iban/BlacklistedIbanCheckService.java:31-33 | when every input IBAN is stored, the valid list is empty |
| Blacklist.BlacklistIban | src/main/java/com/company/invoice_scanner_service/service/iban/BlacklistedIbanService.java:39-52 | an IBAN already stored is refused with IllegalArgument and the store unchanged; otherwise one entry is saved; IBANs stay unique |
| Blacklist.BlacklistTwice | src/main/java/com/company/invoice_scanner_service/service/iban/BlacklistedIbanService.java:40-43 | blacklisting the same IBAN twice fails the second time with the IBAN in the message |
| PdfDownload.ValidateUrl | src/main/java/com/company/invoice_scanner_service/service/pdf/PdfDownloadService.java:48-52 | every rejection is InvalidUrlException |
| PdfDownload.HasText | src/main/java/com/company/invoice_scanner_service/service/pdf/PdfDownloadService.java:49 | a URL with text is present and non-empty; a URL whose first character is not whitespace has text |
| PdfDownload.ValidateUrlSpec | src/main/java/com/company/invoice_scanner_service/service/pdf/PdfDownloadService.java:48-52 | a URL passes iff it is present and starts with "http"; a rejection's message carries the URL, "null" for a null one |
| PdfDownload.BlankUrlRejected | src/main/java/com/company/invoice_scanner_service/service/pdf/PdfDownloadService.java:49 | a null or whitespace-only URL is rejected |
| PdfDownload.ByteSource.Read | src/main/java/com/company/invoice_scanner_service/service/pdf/PdfDownloadService.java:62 | -1 at the end of the stream, an IOException at its failure point, otherwise the next 1 to buffer-length bytes copied into the buffer |
| PdfDownload.TempFile.Write | src/main/java/com/company/invoice_scanner_service/service/pdf/PdfDownloadService.java:63 | appends exactly the given slice of the buffer |
| PdfDownload.SavePdfFromStream | src/main/java/com/company/invoice_scanner_service/service/pdf/PdfDownloadService.java:57-67 | the file holds exactly the bytes of the stream from where it stood to its end; a failed creation or read is an IOException |
| PdfDownload.Server.Open | src/main/java/com/company/invoice_scanner_service/service/pdf/PdfDownloadService.java:29-32 | opening records one connection to the URL and yields the server's answer |
| PdfDownload.DownloadPdfs | src/main/java/com/company/invoice_scanner_service/service/pdf/PdfDownloadService.java:25-43 | no connection on a bad URL; status other than 200 is PdfNotFound; an IOException is PdfProcessing; otherwise exactly one fresh file with the body's bytes |
| TaskOrchestrator.ExtractEach | src/main/java/com/company/invoice_scanner_service/service/TaskOrchestratorService.java:38-46 | one extraction call per file, in file order |
| TaskOrchestrator.ExtractAll | src/main/java/com/company/invoice_scanner_service/service/TaskOrchestratorService.java:38-48 | whatever a file's extraction throws, the flatMap fails with PdfProcessingException |
| TaskOrchestrator.ProcessPdfForIbans | src/main/java/com/company/invoice_scanner_service/service/TaskOrchestratorService.java:31-67 | the download is always the first call; a returned list is never empty, and the blacklist check on it was the last call made |
| TaskOrchestrator.ExtractAllSpec | src/main/java/com/company/invoice_scanner_service/service/TaskOrchestratorService.java:38-48 | the flatMap succeeds iff every file extracts, then holds exactly their IBANs; otherwise PdfProcessing naming the first failing file; validation is never called |
| TaskOrchestrator.ExtractCallsAll | src/main/java/com/company/invoice_scanner_service/service/TaskOrchestratorService.java:38-46 | when every extraction succeeds every file is extracted once, in order |
| TaskOrchestrator.DownloadFailureStops | src/main/java/com/company/invoice_scanner_service/service/TaskOrchestratorService.java:35 | a download failure propagates unchanged and nothing else is called |
| TaskOrchestrator.ExtractionFailureStops | src/main/java/com/company/invoice_scanner_service/service/TaskOrchestratorService.java:42-45 | an extraction failure gives PdfProcessing with the prefix and file name, before validation |
| TaskOrchestrator.ExtractedIbans | src/main/java/com/company/invoice_scanner_service/service/TaskOrchestratorService.java:47-52 | the list handed on has every IBAN of every file exactly once; when empty the run ends with NoIbanFound after download and extraction only |
| Chars.JoinSnoc | src/main/java/com/company/invoice_scanner_service/service/TaskOrchestratorService.java:58 | `String.join` of a list with one more string is the old join, the separator, and that string |
| Chars.JoinHasElement | src/main/java/com/company/invoice_scanner_service/service/TaskOrchestratorService.java:58 | every extracted IBAN occurs in the joined message text |
| TaskOrchestrator.NoValidIbansStops | src/main/java/com/company/invoice_scanner_service/service/TaskOrchestratorService.java:55-59 | an empty validation result gives InvalidIbans with the extracted IBANs joined by commas; the blacklist is not checked |
| TaskOrchestrator.BlacklistDecides | src/main/java/com/company/invoice_scanner_service/service/TaskOrchestratorService.java:62-66 | the blacklist check gets exactly the validated list as the last call; its failure propagates, otherwise that list is returned |
| TaskOrchestrator.SuccessfulRun | src/main/java/com/company/invoice_scanner_service/service/TaskOrchestratorService.java:31-67 | a successful run calls every service once, in pipeline order, and returns the non-empty validated list |
| TaskOrchestrator.SuccessIsDistinctAndFound | src/main/java/com/company/invoice_scanner_service/service/TaskOrchestratorService.java:38-66 | with an order-keeping validation, every returned IBAN was found in a file, and none twice |
| ExceptionHandler.StatusTable | src/main/java/com/company/invoice_scanner_service/exception/GlobalExceptionHandler.java:19-62 | each status, both ways: 400 for bad URL, illegal argument, processing; 404 for no PDF; 403 for blacklisted; 200 for no or invalid IBANs; 500 for I/O and other runtime failures |
| ExceptionHandler.HandleFailure | src/main/java/com/company/invoice_scanner_service/exception/GlobalExceptionHandler.java:19-94 | every failure is answered with one of 200, 400, 403, 404 and 500, and only blacklisted IBANs get an InvoiceScanResponse body |
| ExceptionHandler.HandleCompletion | src/main/java/com/company/invoice_scanner_service/exception/GlobalExceptionHandler.java:64-87 | a cause that is not one of the service's failures gets 500 with the INTERNAL_ERROR key |
| ExceptionHandler.Handle | src/main/java/com/company/invoice_scanner_service/exception/GlobalExceptionHandler.java:19-94 | exactly the checked exceptions other than IOException go unanswered |
| ExceptionHandler.MessagePreserved | src/main/java/com/company/invoice_scanner_service/exception/GlobalExceptionHandler.java:19-42 | every error body but the blacklist answer carries the exception's own message |
| ExceptionHandler.KeysDistinguishKinds | src/main/java/com/company/invoice_scanner_service/exception/GlobalExceptionHandler.java:19-62 | two failures share an error key iff they are of one class or both internal |
| ExceptionHandler.BlacklistedResponse | src/main/java/com/company/invoice_scanner_service/exception/GlobalExceptionHandler.java:44-52 | 403 with the fixed message and the blacklisted list; the valid list is not passed on |
| ExceptionHandler.CompletionUnwrapsCause | src/main/java/com/company/invoice_scanner_service/exception/GlobalExceptionHandler.java:64-81 | a CompletionException is answered as its cause would be |
| ExceptionHandler.UnknownCause | src/main/java/com/company/invoice_scanner_service/exception/GlobalExceptionHandler.java:82-85 | a null or unknown cause gives 500 INTERNAL_ERROR "An unexpected error occurred" |
| ExceptionHandler.OneLevelUnwrap | src/main/java/com/company/invoice_scanner_service/exception/GlobalExceptionHandler.java:81 | a nested CompletionException is handled generically with its own message |
| ExceptionHandler.HandlerTotal | src/main/java/com/company/invoice_scanner_service/exception/GlobalExceptionHandler.java:64-94 | every runtime or I/O exception is answered with one of 200, 400, 403, 404, 500; only other checked exceptions are not |
| PipelineExamples.ValidationKeepsOrder | src/main/java/com/company/invoice_scanner_service/service/iban/IbanValidationService.java:34-36 | `validateIbans` only deletes elements, as the orchestrator lemma requires |
| PipelineExamples.EndToEnd | src/main/java/com/company/invoice_scanner_service/service/TaskOrchestratorService.java:31-67 | with the real validation and blacklist check, every IBAN of a successful run is valid, was found in a file, is not blacklisted, and occurs once |
| PipelineExamples.SuccessfulScenario | src/test/java/com/company/invoice_scanner_service/service/TaskOrchestratorServiceTest.java:51-68 | the mocked success run returns the IBAN after one call to each service, in order |
| PipelineExamples.ExtractionFailsScenario | src/test/java/com/company/invoice_scanner_service/service/TaskOrchestratorServiceTest.java:83-95 | a failing extraction gives PdfProcessing naming the file, and validation is not reached |
| IbanValidationExamples.FallbackOf | src/main/java/com/company/invoice_scanner_service/service/iban/IbanValidationService.java:83-87 | for a country code, two check digits and a digit-only BBAN, the IBAN fits the pattern and the fallback's numeral is the BBAN, the two letter blocks and the check digits, in that order |
| IbanValidationExamples.VerdictOf | src/main/java/com/company/invoice_scanner_service/service/iban/IbanValidationService.java:41-68 | such an IBAN of a tested length is kept exactly when iban4j accepts it, or reports its country unsupported and the fallback remainder is 1; iban4j's check-digit error makes the call throw |
| IbanValidationExamples.HyphenatedIbanRejected | src/test/java/com/company/invoice_scanner_service/service/iban/IbanValidationServiceTest.java:123-133 | the hyphenated IBAN fails the pattern and is filtered out |
| IbanValidationExamples.UnsupportedCountryRejected | src/test/java/com/company/invoice_scanner_service/service/iban/IbanValidationServiceTest.java:69-80 | the XX IBAN has fallback remainder 74 and is filtered out |
| IbanValidationExamples.InvalidChecksumRejected | src/test/java/com/company/invoice_scanner_service/service/iban/IbanValidationServiceTest.java:136-148 | check digits 00 give remainder 44 and the IBAN is filtered out |
| IbanValidationExamples.InvalidIbansRejected | src/test/java/com/company/invoice_scanner_service/service/iban/IbanValidationServiceTest.java:55-66 | both invalid IBANs are filtered out |
| IbanValidationExamples.ValidIbansKept | src/test/java/com/company/invoice_scanner_service/service/iban/IbanValidationServiceTest.java:39-52 | the two valid IBANs are kept in order, whether iban4j accepts them or falls back |
| IbanValidationExamples.ValidAndInvalidIbans | src/test/java/com/company/invoice_scanner_service/service/iban/IbanValidationServiceTest.java:107-120 | the invalid IBAN between two valid ones is dropped |
| IbanValidationExamples.CheckDigitTypoThrows | src/main/java/com/company/invoice_scanner_service/service/iban/IbanValidationService.java:53-68 | DE88370400440532013000, one digit off a valid IBAN, makes `validateIbans` throw when iban4j rejects its check digits, although the fallback remainder is 0 and would have dropped it |
| IbanValidationExamples.ScannedFallback | src/test/java/com/company/invoice_scanner_service/service/iban/IbanExtractionServiceTest.java:47 | the IBAN of the extraction test document has remainder 1 |
| IbanExtractionExamples.ScannedTextIbans | src/test/java/com/company/invoice_scanner_service/service/iban/IbanExtractionServiceTest.java:43-48 | the test document's text, followed by any blanks, yields exactly its IBAN |
| IbanExtractionExamples.NoIbanTextYieldsNothing | src/test/java/com/company/invoice_scanner_service/service/iban/IbanExtractionServiceTest.java:50-55 | the text without an IBAN yields nothing |
| IbanDocumentExamples.OnePageIbans | src/main/java/com/company/invoice_scanner_service/service/iban/IbanExtractionService.java:44-57 | a one-page document yields the IBANs of its text |
| IbanDocumentExamples.ValidPdfYieldsIban | src/test/java/com/company/invoice_scanner_service/service/iban/IbanExtractionServiceTest.java:43-48 | the valid test document yields exactly its IBAN |
| IbanDocumentExamples.NoIbanPdfYieldsNothing | src/test/java/com/company/invoice_scanner_service/service/iban/IbanExtractionServiceTest.java:50-55 | the other test document yields no IBAN |
| IbanDocumentExamples.ScanValidPdf | src/test/java/com/company/invoice_scanner_service/service/iban/IbanExtractionServiceTest.java:44-47 | the list is not empty and its first element is the IBAN |
| BlacklistExamples.MixedList | src/test/java/com/company/invoice_scanner_service/service/iban/BlacklistedIbanCheckServiceTest.java:47-70 | the stored IBAN is reported blacklisted and the other kept valid |
| BlacklistExamples.OnlyBlacklisted | src/test/java/com/company/invoice_scanner_service/service/iban/BlacklistedIbanCheckServiceTest.java:72-95 | with only blacklisted IBANs the valid list is empty |
| PdfDownloadExamples.InvalidUrlMessage | src/test/java/com/company/invoice_scanner_service/service/pdf/PdfDownloadServiceTest.java:58-64 | "invalid-url" is rejected with the URL in the message |
| PdfDownloadExamples.DownloadValidPdf | src/test/java/com/company/invoice_scanner_service/service/pdf/PdfDownloadServiceTest.java:38-56 | a 200 answer yields one file holding the body |
| PdfDownloadExamples.DownloadErrorStatus | src/test/java/com/company/invoice_scanner_service/service/pdf/PdfDownloadServiceTest.java:66-105 | a 400 or 404 answer is PdfNotFound with the fixed message |
| PdfDownloadExamples.DownloadDroppedConnection | src/main/java/com/company/invoice_scanner_service/service/pdf/PdfDownloadService.java:39-42 | an IOException while reading is PdfProcessing with the fixed message |

## Left out

- Character classes, `Character.isLetter`, `getNumericValue` and `toUpperCase` are modelled on ASCII only. Non-ASCII digits and letters are not covered.
- iban4j's `IbanUtil.validate` is not part of this model. It is a parameter (`LibraryVerdict`: accepts, unsupported country, format error, check-digit error), and lemmas hold for every such oracle. Which outcome iban4j gives for a given IBAN (its country registry and BBAN structures) is not modelled.
- IbanValidation.IsValidIban: the message of the uncaught InvalidCheckDigitException is modelled as a fixed text naming the IBAN; iban4j's wording with the found and expected check digits is not modelled. The message is not part of any contract.
- The configured pattern is a parameter `string -> bool` meaning "matches the whole string". The pattern of the repository's tests is spelled out as `ConfiguredPattern`.
- IbanExtraction.LongestEnd: Java's backtracking matcher is modelled by its result, the longest end at which the pattern matches from a start. The search order of the backtracking engine is not modelled step by step.
- PDFBox (`Loader.loadPDF`, `PDFTextStripper`, `PDFTextStripperByArea`, page media boxes) is not part of this model. A document is given as the texts its strippers return, or an IOException per read (`PdfFile`, `Page`, `TextRead`, `RegionRead`).
- IbanDocumentExamples.ValidPdfYieldsIban: the test PDF is assumed to strip to its written line followed only by blank characters. The stripper's exact output is not modelled.
- IbanDocument.SetToList: `HashSet` iteration order is left open; only "each element once" is stated. IbanDocumentExamples.ScanValidPdf relies on the set holding a single element.
- A `null` list passed to `validateIbans` is modelled (`None`). Null elements inside lists, and a null `File`, are not.
- Blacklist.BlacklistedIban: the `reason` field is assumed to be a column of the entity. The entity class in the repository declares only `id`, `iban` and `createdAt`, yet `blacklistIban` calls `setReason`. The `length = 34` limit of the `iban` column is left out with the rest of persistence: saving a longer IBAN would fail in the database, while the model stores it.
- Blacklist.EntriesIn: the row order of `findByIbanIn` is taken to be store order. The database does not promise any order.
- Entity timestamps (`createdAt`), the response `timestamp`, and the always-empty `details` map of `ErrorResponse` are left out.
- Blacklist.Repository.FindByIbanIn: the count of lookups that the tests verify is ghost state.
- `BlacklistedIbanService.checkForBlacklistedIbans` is identical to `BlacklistedIbanCheckService.checkForBlacklistedIbans` apart from logging and a console print. One method, `Blacklist.CheckForBlacklistedIbans`, models both.
- The message of `BlacklistedIbanFoundException` is not modelled. The handler does not use it.
- PdfDownload.ByteSource.Read: real streams may return fewer bytes than available. The model returns `min(buffer length, remaining)`, and the copy loop's proof does not depend on the amount.
- Closing the output stream and connection, and the file system path of the temporary file, are not modelled. Failing to create the file is a parameter.
- PdfDownload.DownloadPdfs: `MalformedURLException` from `new URL` and connection failures are one `Unreachable` answer. URL syntax beyond the "http" prefix is not modelled.
- TaskOrchestrator.ExtractAll: `parallelStream` is modelled sequentially. When several files fail, the model names the first in list order; a parallel run may name another. `distinct()` on an ordered parallel stream keeps first-occurrence order, as modelled.
- The collaborators of `processPdfForIbans` are function parameters, not the service classes themselves. PipelineExamples.EndToEnd connects them to the modelled validation and blacklist check.
- The exception classes `InvalidUrlException`, `PdfNotFoundException`, `NoIbanFoundException` and `InvalidIbansException` are not part of this model. They are taken to be distinct `RuntimeException` subclasses, each with the message it is constructed with.
- ExceptionHandler.Handle: Spring's selection of the most specific `@ExceptionHandler` is modelled by the failure's kind. A `CompletionException`'s default message (its cause's `toString()`) is a given string.
- The controllers, the multi-URL entry point, caching, logging and the console print are left out. They hold no logic of the pipeline.
- The orchestrator test mocks `BlacklistedIbanService`, while the orchestrator calls `BlacklistedIbanCheckService`. The scenarios use the service the source calls.
- The handler test for the generic handler passes a checked `Exception` where a `RuntimeException` is required. The model follows the handler's signature.
