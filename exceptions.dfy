/** The application's three exception classes (ApiException.java,
    DatabaseException.java, FileException.java) and the standard Java
    exceptions the core raises, as immutable values. Every field of the three
    classes is `final`, so a value is the faithful form. */
module Exceptions {
  import opened Common

  /** Which class an exception belongs to, with that class's own fields. */
  datatype Kind =
    | DatabaseError(sqlCode: Option<string>)
    | ApiError(apiUrl: Option<string>, statusCode: Option<int>)
    | FileError(filePath: Option<string>)
    | IllegalArgument
    | NullPointer
    | Persistence      // a failure raised by the persistence layer (Spring Data / JPA)
    | NumberFormat     // Long.parseLong on a non-numeric string
    | DateTimeParse    // LocalDateTime.parse on a malformed string
    | ClassCast        // a (String) cast of a JSON value that is not a string

  /** A thrown exception: its class, `getMessage()` (possibly null) and `getCause()`. */
  datatype Exc = Exc(kind: Kind, message: Option<string>, cause: Option<Exc>)

  // ---- ApiException ------------------------------------------------------

  /** `new ApiException(message, apiUrl)`. */
  function ApiException(message: Option<string>, apiUrl: Option<string>): (e: Exc)
    ensures e.kind == ApiError(apiUrl, None)
    ensures e.message == message && e.cause == None
  {
    Exc(ApiError(apiUrl, None), message, None)
  }

  /** `new ApiException(message, cause, apiUrl)`. */
  function ApiExceptionWithCause(message: Option<string>, cause: Option<Exc>, apiUrl: Option<string>): (e: Exc)
    ensures e.kind == ApiError(apiUrl, None)
    ensures e.message == message && e.cause == cause
  {
    Exc(ApiError(apiUrl, None), message, cause)
  }

  /** `new ApiException(message, cause, apiUrl, statusCode)`. */
  function ApiExceptionWithStatus(message: Option<string>, cause: Option<Exc>, apiUrl: Option<string>,
                                  statusCode: Option<int>): (e: Exc)
    ensures e.kind == ApiError(apiUrl, statusCode)
    ensures e.message == message && e.cause == cause
  {
    Exc(ApiError(apiUrl, statusCode), message, cause)
  }

  const ApiPrefix := "ApiException: "

  /** `ApiException.toString()`. */
  function ApiToString(e: Exc): (r: string)
    requires e.kind.ApiError?
    ensures |ApiPrefix| < |r| && r[..|ApiPrefix|] == ApiPrefix && r[|r| - 1] == ']'
  {
    var url := ApiPrefix + JavaString(e.message) + " [API: " + JavaString(e.kind.apiUrl);
    var status := match e.kind.statusCode
                  case Some(c) => ", Estado: " + IntToString(c)
                  case None => "";
    url + status + "]"
  }

  // ---- DatabaseException -------------------------------------------------

  /** `new DatabaseException(message)`. */
  function DatabaseException(message: Option<string>): (e: Exc)
    ensures e.kind == DatabaseError(None)
    ensures e.message == message && e.cause == None
  {
    Exc(DatabaseError(None), message, None)
  }

  /** `new DatabaseException(message, cause)`: the wrapper used throughout the services. */
  function DatabaseExceptionWithCause(message: Option<string>, cause: Option<Exc>): (e: Exc)
    ensures e.kind == DatabaseError(None)
    ensures e.message == message && e.cause == cause
  {
    Exc(DatabaseError(None), message, cause)
  }

  /** `new DatabaseException(message, cause, sqlCode)`. */
  function DatabaseExceptionWithCode(message: Option<string>, cause: Option<Exc>, sqlCode: Option<string>): (e: Exc)
    ensures e.kind == DatabaseError(sqlCode)
    ensures e.message == message && e.cause == cause
  {
    Exc(DatabaseError(sqlCode), message, cause)
  }

  const DatabasePrefix := "DatabaseException: "

  /** `DatabaseException.toString()`. */
  function DatabaseToString(e: Exc): (r: string)
    requires e.kind.DatabaseError?
    ensures |DatabasePrefix| <= |r| && r[..|DatabasePrefix|] == DatabasePrefix
  {
    match e.kind.sqlCode
    case Some(code) => DatabasePrefix + JavaString(e.message) + " [SQL: " + code + "]"
    case None => DatabasePrefix + JavaString(e.message)
  }

  // ---- FileException -----------------------------------------------------

  /** `new FileException(message, filePath)`. */
  function FileException(message: Option<string>, filePath: Option<string>): (e: Exc)
    ensures e.kind == FileError(filePath)
    ensures e.message == message && e.cause == None
  {
    Exc(FileError(filePath), message, None)
  }

  /** `new FileException(message, cause, filePath)`. */
  function FileExceptionWithCause(message: Option<string>, cause: Option<Exc>, filePath: Option<string>): (e: Exc)
    ensures e.kind == FileError(filePath)
    ensures e.message == message && e.cause == cause
  {
    Exc(FileError(filePath), message, cause)
  }

  /** `FileException.getFilePath()`. */
  function GetFilePath(e: Exc): Option<string>
    requires e.kind.FileError?
  {
    e.kind.filePath
  }

  const FilePrefix := "FileException: "

  /** `FileException.toString()`. */
  function FileToString(e: Exc): (r: string)
    requires e.kind.FileError?
    ensures |FilePrefix| < |r| && r[..|FilePrefix|] == FilePrefix && r[|r| - 1] == ']'
  {
    FilePrefix + JavaString(e.message) + " [Archivo: " + JavaString(e.kind.filePath) + "]"
  }

  // ---- Class names ---------------------------------------------------------

  /** `ex.getClass().getSimpleName()`. */
  function SimpleName(k: Kind): string
  {
    match k
    case DatabaseError(_) => "DatabaseException"
    case ApiError(_, _) => "ApiException"
    case FileError(_) => "FileException"
    case IllegalArgument => "IllegalArgumentException"
    case NullPointer => "NullPointerException"
    case Persistence => "DataAccessException"
    case NumberFormat => "NumberFormatException"
    case DateTimeParse => "DateTimeParseException"
    case ClassCast => "ClassCastException"
  }

  // ---- Properties ------------------------------------------------------------

  /** Both shorter constructors of ApiException leave the status absent, and the
      full constructor keeps the one it is given; the URL is kept by all three. */
  lemma {:induction false} ApiConstructorsKeepFields(m: Option<string>, c: Option<Exc>, url: Option<string>, code: Option<int>)
    ensures ApiException(m, url).kind.statusCode.None?
    ensures ApiExceptionWithCause(m, c, url).kind.statusCode.None?
    ensures ApiExceptionWithStatus(m, c, url, code).kind.statusCode == code
    ensures ApiException(m, url).kind.apiUrl == url
    ensures ApiExceptionWithCause(m, c, url).kind.apiUrl == url
    ensures ApiExceptionWithStatus(m, c, url, code).kind.apiUrl == url
  {
  }

  /** Without a status, the text after the prefix is the message followed by the
      URL in brackets; with one, `", Estado: <code>"` sits before the closing bracket. */
  lemma {:induction false} ApiToStringLayout(e: Exc)
    requires e.kind.ApiError?
    ensures e.kind.statusCode.None? ==>
      ApiToString(e) == ApiPrefix + JavaString(e.message) + " [API: " + JavaString(e.kind.apiUrl) + "]"
    ensures e.kind.statusCode.Some? ==>
      ApiToString(e) == ApiPrefix + JavaString(e.message) + " [API: " + JavaString(e.kind.apiUrl)
                        + ", Estado: " + IntToString(e.kind.statusCode.value) + "]"
  {
  }

  /** The message can be read back from `toString()`: it starts right after the
      class prefix, and without an SQL code it is everything after the prefix. */
  lemma {:induction false} DatabaseToStringDecodes(e: Exc)
    requires e.kind.DatabaseError?
    ensures var r := DatabaseToString(e);
            var msg := JavaString(e.message);
            |DatabasePrefix| + |msg| <= |r| && r[|DatabasePrefix|..|DatabasePrefix| + |msg|] == msg
    ensures e.kind.sqlCode.None? ==> DatabaseToString(e)[|DatabasePrefix|..] == JavaString(e.message)
    ensures e.kind.sqlCode.Some? ==>
      var r := DatabaseToString(e);
      var tail := " [SQL: " + e.kind.sqlCode.value + "]";
      |tail| <= |r| && r[|r| - |tail|..] == tail
  {
    var msg := JavaString(e.message);
    var r := DatabaseToString(e);
    match e.kind.sqlCode
    case None =>
      assert r == DatabasePrefix + msg;
    case Some(code) =>
      var tail := " [SQL: " + code + "]";
      assert r == (DatabasePrefix + msg) + tail;
  }

  /** Two database exceptions with the same SQL code print the same text only if
      their messages print the same. */
  lemma {:induction false} DatabaseToStringInjective(e1: Exc, e2: Exc)
    requires e1.kind.DatabaseError? && e2.kind.DatabaseError? && e1.kind.sqlCode == e2.kind.sqlCode
    requires DatabaseToString(e1) == DatabaseToString(e2)
    ensures JavaString(e1.message) == JavaString(e2.message)
  {
    DatabaseToStringDecodes(e1);
    DatabaseToStringDecodes(e2);
    var r := DatabaseToString(e1);
    var m1, m2 := JavaString(e1.message), JavaString(e2.message);
    if e1.kind.sqlCode.Some? {
      var tail := " [SQL: " + e1.kind.sqlCode.value + "]";
      assert r == DatabasePrefix + m1 + tail;
      assert r == DatabasePrefix + m2 + tail;
      assert |m1| == |m2|;
    }
  }

  /** Both FileException constructors keep the path verbatim and `getFilePath`
      returns it; the message given is the message reported. */
  lemma {:induction false} FilePathRoundTrip(m: Option<string>, c: Option<Exc>, path: Option<string>)
    ensures GetFilePath(FileException(m, path)) == path && FileException(m, path).message == m
    ensures GetFilePath(FileExceptionWithCause(m, c, path)) == path && FileExceptionWithCause(m, c, path).message == m
  {
  }

  /** The message and the path can both be read back from `FileException.toString()`. */
  lemma {:induction false} FileToStringDecodes(e: Exc)
    requires e.kind.FileError?
    ensures var r := FileToString(e);
            var msg := JavaString(e.message);
            var tail := " [Archivo: " + JavaString(e.kind.filePath) + "]";
            r == FilePrefix + msg + tail
            && r[|FilePrefix|..|FilePrefix| + |msg|] == msg
            && r[|r| - |tail|..] == tail
  {
    var msg := JavaString(e.message);
    var tail := " [Archivo: " + JavaString(e.kind.filePath) + "]";
    assert FileToString(e) == (FilePrefix + msg) + tail;
  }

  /** The `toString()` texts of the three application exceptions never collide
      across classes: the first character of the class prefix tells them apart. */
  lemma {:induction false} ToStringIdentifiesClass(a: Exc, d: Exc, f: Exc)
    requires a.kind.ApiError? && d.kind.DatabaseError? && f.kind.FileError?
    ensures ApiToString(a) != DatabaseToString(d)
    ensures ApiToString(a) != FileToString(f)
    ensures DatabaseToString(d) != FileToString(f)
  {
    assert ApiToString(a)[0] == ApiToString(a)[..|ApiPrefix|][0] == 'A';
    assert DatabaseToString(d)[0] == DatabaseToString(d)[..|DatabasePrefix|][0] == 'D';
    assert FileToString(f)[0] == FileToString(f)[..|FilePrefix|][0] == 'F';
  }
}
