/**
 * The canonical spellings of the header names the library writes, as
 * `normaliseHeader` computes them (src/util.js:52-73). Each spelling is
 * evaluated in small steps, one literal fact per lemma.
 */
module HeaderNames {
  import opened JsString
  import Util

  lemma CapitaliseByte()
    ensures Util.Capitalise("byte") == "Byte"
  {
    assert UpperChar('b') == 'B';
    assert "byte"[1..] == "yte";
  }

  lemma CapitaliseContent()
    ensures Util.Capitalise("content") == "Content"
  {
    assert UpperChar('c') == 'C';
    assert "content"[1..] == "ontent";
  }

  lemma CapitaliseDescription()
    ensures Util.Capitalise("description") == "Description"
  {
    assert UpperChar('d') == 'D';
    assert "description"[1..] == "escription";
  }

  lemma CapitaliseDisposition()
    ensures Util.Capitalise("disposition") == "Disposition"
  {
    assert UpperChar('d') == 'D';
    assert "disposition"[1..] == "isposition";
  }

  lemma CapitaliseFailure()
    ensures Util.Capitalise("failure") == "Failure"
  {
    assert UpperChar('f') == 'F';
    assert "failure"[1..] == "ailure";
  }

  lemma CapitaliseId()
    ensures Util.Capitalise("id") == "Id"
  {
    assert UpperChar('i') == 'I';
    assert "id"[1..] == "d";
  }

  lemma CapitaliseMessage()
    ensures Util.Capitalise("message") == "Message"
  {
    assert UpperChar('m') == 'M';
    assert "message"[1..] == "essage";
  }

  lemma CapitaliseRange()
    ensures Util.Capitalise("range") == "Range"
  {
    assert UpperChar('r') == 'R';
    assert "range"[1..] == "ange";
  }

  lemma CapitaliseReport()
    ensures Util.Capitalise("report") == "Report"
  {
    assert UpperChar('r') == 'R';
    assert "report"[1..] == "eport";
  }

  lemma CapitaliseSuccess()
    ensures Util.Capitalise("success") == "Success"
  {
    assert UpperChar('s') == 'S';
    assert "success"[1..] == "uccess";
  }

  lemma IsLowerByteRange()
    ensures Util.IsLowerCase("byte-range")
  {
  }

  lemma LowerByteRange()
    ensures ToLower("byte-range") == "byte-range"
  {
    IsLowerByteRange();
    Util.LowerIsIdentity("byte-range");
  }

  lemma CapitalisedByteRange()
    ensures Util.Capitalised("byte-range", true) == "Byte-Range"
  {
    assert "byte" + "-" + "range" == "byte-range";
    Util.CapitalisedParts("byte", "range");
    CapitaliseByte();
    CapitaliseRange();
    assert "Byte" + "-" + "Range" == "Byte-Range";
  }

  lemma SpecialByteRange()
    ensures Util.SpecialCase("Byte-Range") == "Byte-Range"
  {
  }

  /** `normaliseHeader('byte-range')` is 'Byte-Range'. */
  lemma ByteRange()
    ensures Util.Normalise("byte-range") == "Byte-Range"
  {
    LowerByteRange();
    CapitalisedByteRange();
    SpecialByteRange();
  }

  /** 'Byte-Range' is its own canonical spelling. */
  lemma ByteRangeCanonical()
    ensures Util.Normalise("Byte-Range") == "Byte-Range"
  {
    ByteRange();
    Util.NormaliseIdempotent("byte-range");
  }

  lemma IsLowerMessageId()
    ensures Util.IsLowerCase("message-id")
  {
  }

  lemma LowerMessageId()
    ensures ToLower("message-id") == "message-id"
  {
    IsLowerMessageId();
    Util.LowerIsIdentity("message-id");
  }

  lemma CapitalisedMessageId()
    ensures Util.Capitalised("message-id", true) == "Message-Id"
  {
    assert "message" + "-" + "id" == "message-id";
    Util.CapitalisedParts("message", "id");
    CapitaliseMessage();
    CapitaliseId();
    assert "Message" + "-" + "Id" == "Message-Id";
  }

  lemma SpecialMessageId()
    ensures Util.SpecialCase("Message-Id") == "Message-ID"
  {
  }

  /** `normaliseHeader('message-id')` is 'Message-ID'. */
  lemma MessageId()
    ensures Util.Normalise("message-id") == "Message-ID"
  {
    LowerMessageId();
    CapitalisedMessageId();
    SpecialMessageId();
  }

  /** 'Message-ID' is its own canonical spelling. */
  lemma MessageIdCanonical()
    ensures Util.Normalise("Message-ID") == "Message-ID"
  {
    MessageId();
    Util.NormaliseIdempotent("message-id");
  }

  lemma IsLowerSuccessReport()
    ensures Util.IsLowerCase("success-report")
  {
  }

  lemma LowerSuccessReport()
    ensures ToLower("success-report") == "success-report"
  {
    IsLowerSuccessReport();
    Util.LowerIsIdentity("success-report");
  }

  lemma CapitalisedSuccessReport()
    ensures Util.Capitalised("success-report", true) == "Success-Report"
  {
    assert "success" + "-" + "report" == "success-report";
    Util.CapitalisedParts("success", "report");
    CapitaliseSuccess();
    CapitaliseReport();
    assert "Success" + "-" + "Report" == "Success-Report";
  }

  lemma SpecialSuccessReport()
    ensures Util.SpecialCase("Success-Report") == "Success-Report"
  {
  }

  /** `normaliseHeader('success-report')` is 'Success-Report'. */
  lemma SuccessReport()
    ensures Util.Normalise("success-report") == "Success-Report"
  {
    LowerSuccessReport();
    CapitalisedSuccessReport();
    SpecialSuccessReport();
  }

  /** 'Success-Report' is its own canonical spelling. */
  lemma SuccessReportCanonical()
    ensures Util.Normalise("Success-Report") == "Success-Report"
  {
    SuccessReport();
    Util.NormaliseIdempotent("success-report");
  }

  lemma IsLowerFailureReport()
    ensures Util.IsLowerCase("failure-report")
  {
  }

  lemma LowerFailureReport()
    ensures ToLower("failure-report") == "failure-report"
  {
    IsLowerFailureReport();
    Util.LowerIsIdentity("failure-report");
  }

  lemma CapitalisedFailureReport()
    ensures Util.Capitalised("failure-report", true) == "Failure-Report"
  {
    assert "failure" + "-" + "report" == "failure-report";
    Util.CapitalisedParts("failure", "report");
    CapitaliseFailure();
    CapitaliseReport();
    assert "Failure" + "-" + "Report" == "Failure-Report";
  }

  lemma SpecialFailureReport()
    ensures Util.SpecialCase("Failure-Report") == "Failure-Report"
  {
  }

  /** `normaliseHeader('failure-report')` is 'Failure-Report'. */
  lemma FailureReport()
    ensures Util.Normalise("failure-report") == "Failure-Report"
  {
    LowerFailureReport();
    CapitalisedFailureReport();
    SpecialFailureReport();
  }

  /** 'Failure-Report' is its own canonical spelling. */
  lemma FailureReportCanonical()
    ensures Util.Normalise("Failure-Report") == "Failure-Report"
  {
    FailureReport();
    Util.NormaliseIdempotent("failure-report");
  }

  lemma IsLowerContentDisposition()
    ensures Util.IsLowerCase("content-disposition")
  {
  }

  lemma LowerContentDisposition()
    ensures ToLower("content-disposition") == "content-disposition"
  {
    IsLowerContentDisposition();
    Util.LowerIsIdentity("content-disposition");
  }

  lemma CapitalisedContentDisposition()
    ensures Util.Capitalised("content-disposition", true) == "Content-Disposition"
  {
    SpelledDisposition();
    Util.CapitalisedParts("content", "disposition");
    CapitaliseContent();
    CapitaliseDisposition();
  }

  lemma SpelledDisposition()
    ensures "content" + "-" + "disposition" == "content-disposition"
    ensures "Content" + "-" + "Disposition" == "Content-Disposition"
  {
  }

  lemma SpecialContentDisposition()
    ensures Util.SpecialCase("Content-Disposition") == "Content-Disposition"
  {
  }

  /** `normaliseHeader('content-disposition')` is 'Content-Disposition'. */
  lemma ContentDisposition()
    ensures Util.Normalise("content-disposition") == "Content-Disposition"
  {
    LowerContentDisposition();
    CapitalisedContentDisposition();
    SpecialContentDisposition();
  }

  /** 'Content-Disposition' is its own canonical spelling. */
  lemma ContentDispositionCanonical()
    ensures Util.Normalise("Content-Disposition") == "Content-Disposition"
  {
    ContentDisposition();
    Util.NormaliseIdempotent("content-disposition");
  }

  lemma IsLowerContentDescription()
    ensures Util.IsLowerCase("content-description")
  {
  }

  lemma LowerContentDescription()
    ensures ToLower("content-description") == "content-description"
  {
    IsLowerContentDescription();
    Util.LowerIsIdentity("content-description");
  }

  lemma CapitalisedContentDescription()
    ensures Util.Capitalised("content-description", true) == "Content-Description"
  {
    SpelledDescription();
    Util.CapitalisedParts("content", "description");
    CapitaliseContent();
    CapitaliseDescription();
  }

  lemma SpelledDescription()
    ensures "content" + "-" + "description" == "content-description"
    ensures "Content" + "-" + "Description" == "Content-Description"
  {
  }

  lemma SpecialContentDescription()
    ensures Util.SpecialCase("Content-Description") == "Content-Description"
  {
  }

  /** `normaliseHeader('content-description')` is 'Content-Description'. */
  lemma ContentDescription()
    ensures Util.Normalise("content-description") == "Content-Description"
  {
    LowerContentDescription();
    CapitalisedContentDescription();
    SpecialContentDescription();
  }

  /** 'Content-Description' is its own canonical spelling. */
  lemma ContentDescriptionCanonical()
    ensures Util.Normalise("Content-Description") == "Content-Description"
  {
    ContentDescription();
    Util.NormaliseIdempotent("content-description");
  }

  lemma CapitaliseTo()
    ensures Util.Capitalise("to") == "To"
  {
    assert UpperChar('t') == 'T';
    assert "to"[1..] == "o";
  }

  lemma CapitalisePath()
    ensures Util.Capitalise("path") == "Path"
  {
    assert UpperChar('p') == 'P';
    assert "path"[1..] == "ath";
  }

  lemma CapitaliseFrom()
    ensures Util.Capitalise("from") == "From"
  {
    assert UpperChar('f') == 'F';
    assert "from"[1..] == "rom";
  }

  lemma CapitaliseType()
    ensures Util.Capitalise("type") == "Type"
  {
    assert UpperChar('t') == 'T';
    assert "type"[1..] == "ype";
  }

  lemma IsLowerToPath()
    ensures Util.IsLowerCase("to-path")
  {
  }

  lemma LowerToPath()
    ensures ToLower("to-path") == "to-path"
  {
    IsLowerToPath();
    Util.LowerIsIdentity("to-path");
  }

  lemma CapitalisedToPath()
    ensures Util.Capitalised("to-path", true) == "To-Path"
  {
    assert "to" + "-" + "path" == "to-path";
    Util.CapitalisedParts("to", "path");
    CapitaliseTo();
    CapitalisePath();
    assert "To" + "-" + "Path" == "To-Path";
  }

  lemma SpecialToPath()
    ensures Util.SpecialCase("To-Path") == "To-Path"
  {
  }

  /** `normaliseHeader('to-path')` is 'To-Path'. */
  lemma ToPath()
    ensures Util.Normalise("to-path") == "To-Path"
  {
    LowerToPath();
    CapitalisedToPath();
    SpecialToPath();
  }

  /** 'To-Path' is its own canonical spelling. */
  lemma ToPathCanonical()
    ensures Util.Normalise("To-Path") == "To-Path"
  {
    ToPath();
    Util.NormaliseIdempotent("to-path");
  }

  lemma IsLowerFromPath()
    ensures Util.IsLowerCase("from-path")
  {
  }

  lemma LowerFromPath()
    ensures ToLower("from-path") == "from-path"
  {
    IsLowerFromPath();
    Util.LowerIsIdentity("from-path");
  }

  lemma CapitalisedFromPath()
    ensures Util.Capitalised("from-path", true) == "From-Path"
  {
    assert "from" + "-" + "path" == "from-path";
    Util.CapitalisedParts("from", "path");
    CapitaliseFrom();
    CapitalisePath();
    assert "From" + "-" + "Path" == "From-Path";
  }

  lemma SpecialFromPath()
    ensures Util.SpecialCase("From-Path") == "From-Path"
  {
  }

  /** `normaliseHeader('from-path')` is 'From-Path'. */
  lemma FromPath()
    ensures Util.Normalise("from-path") == "From-Path"
  {
    LowerFromPath();
    CapitalisedFromPath();
    SpecialFromPath();
  }

  /** 'From-Path' is its own canonical spelling. */
  lemma FromPathCanonical()
    ensures Util.Normalise("From-Path") == "From-Path"
  {
    FromPath();
    Util.NormaliseIdempotent("from-path");
  }

  lemma IsLowerContentType()
    ensures Util.IsLowerCase("content-type")
  {
  }

  lemma LowerContentType()
    ensures ToLower("content-type") == "content-type"
  {
    IsLowerContentType();
    Util.LowerIsIdentity("content-type");
  }

  lemma CapitalisedContentType()
    ensures Util.Capitalised("content-type", true) == "Content-Type"
  {
    assert "content" + "-" + "type" == "content-type";
    Util.CapitalisedParts("content", "type");
    CapitaliseContent();
    CapitaliseType();
    assert "Content" + "-" + "Type" == "Content-Type";
  }

  lemma SpecialContentType()
    ensures Util.SpecialCase("Content-Type") == "Content-Type"
  {
  }

  /** `normaliseHeader('content-type')` is 'Content-Type'. */
  lemma ContentType()
    ensures Util.Normalise("content-type") == "Content-Type"
  {
    LowerContentType();
    CapitalisedContentType();
    SpecialContentType();
  }

  /** 'Content-Type' is its own canonical spelling. */
  lemma ContentTypeCanonical()
    ensures Util.Normalise("Content-Type") == "Content-Type"
  {
    ContentType();
    Util.NormaliseIdempotent("content-type");
  }

  // single-word names the session layer writes

  lemma CapitaliseStatus()
    ensures Util.Capitalise("status") == "Status"
  {
    assert UpperChar('s') == 'S';
    assert "status"[1..] == "tatus";
  }

  /** `normaliseHeader('status')` is 'Status'. */
  lemma LowerStatus()
    ensures ToLower("status") == "status"
  {
    assert Util.IsLowerCase("status");
    Util.LowerIsIdentity("status");
  }

  lemma CapitalisedStatus()
    ensures Util.Capitalised("status", true) == "Status"
  {
    Util.CapitalisedPart("status", true);
    CapitaliseStatus();
  }

  lemma SpecialStatus()
    ensures Util.SpecialCase("Status") == "Status"
  {
    assert |"Status"| != |"Www-Authenticate"| && |"Status"| != |"Message-Id"|;
  }

  lemma Status()
    ensures Util.Normalise("status") == "Status"
  {
    LowerStatus();
    CapitalisedStatus();
    SpecialStatus();
  }

  lemma CapitaliseAuthorization()
    ensures Util.Capitalise("authorization") == "Authorization"
  {
    assert UpperChar('a') == 'A';
    assert "authorization"[1..] == "uthorization";
  }

  lemma IsLowerAuthorization()
    ensures Util.IsLowerCase("authorization")
  {
  }

  lemma LowerAuthorization()
    ensures ToLower("authorization") == "authorization"
  {
    IsLowerAuthorization();
    Util.LowerIsIdentity("authorization");
  }

  lemma CapitalisedAuthorization()
    ensures Util.Capitalised("authorization", true) == "Authorization"
  {
    Util.CapitalisedPart("authorization", true);
    CapitaliseAuthorization();
  }

  lemma SpecialAuthorization()
    ensures Util.SpecialCase("Authorization") == "Authorization"
  {
    assert |"Authorization"| != |"Www-Authenticate"| && |"Authorization"| != |"Message-Id"|;
  }

  /** `normaliseHeader('authorization')` is 'Authorization'. */
  lemma Authorization()
    ensures Util.Normalise("authorization") == "Authorization"
  {
    LowerAuthorization();
    CapitalisedAuthorization();
    SpecialAuthorization();
  }

  lemma CapitaliseExpires()
    ensures Util.Capitalise("expires") == "Expires"
  {
    assert UpperChar('e') == 'E';
    assert "expires"[1..] == "xpires";
  }

  /** `normaliseHeader('expires')` is 'Expires'. */
  lemma LowerExpires()
    ensures ToLower("expires") == "expires"
  {
    assert Util.IsLowerCase("expires");
    Util.LowerIsIdentity("expires");
  }

  lemma CapitalisedExpires()
    ensures Util.Capitalised("expires", true) == "Expires"
  {
    Util.CapitalisedPart("expires", true);
    CapitaliseExpires();
  }

  lemma SpecialExpires()
    ensures Util.SpecialCase("Expires") == "Expires"
  {
    assert |"Expires"| != |"Www-Authenticate"| && |"Expires"| != |"Message-Id"|;
  }

  lemma Expires()
    ensures Util.Normalise("expires") == "Expires"
  {
    LowerExpires();
    CapitalisedExpires();
    SpecialExpires();
  }
}
