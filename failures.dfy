/**
 * The exceptions the scanning service raises and hands to its global exception handler.
 * Each Java exception class becomes one constructor, carrying the state its handler reads.
 */
module Failures {

  datatype Failure =
    | InvalidUrl(message: string)           // InvalidUrlException: malformed document location
    | PdfNotFound(message: string)          // PdfNotFoundException: the server did not answer 200
    | PdfProcessing(message: string)        // PdfProcessingException: download or text extraction failed
    | NoIbanFound(message: string)          // NoIbanFoundException: no candidate in the documents
    | InvalidIbans(message: string)         // InvalidIbansException: candidates found, none valid
    | BlacklistedFound(blacklistedIbans: seq<string>, validIbans: seq<string>)
                                            // BlacklistedIbanFoundException
    | IllegalArgument(message: string)      // IllegalArgumentException
    | IOError(message: string)              // java.io.IOException
    | Runtime(message: string)              // any other RuntimeException
}
