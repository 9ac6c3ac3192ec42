/** Shared vocabulary of the GreenRoom model: optional and failure-carrying
    values, the shape of an HTTP response as the service adapters see it,
    Swift's decimal `String(Int)` / `Int(String)` conversions, the comma
    join used for filter strings, and the fixed list of job categories. */
module Common {

  datatype Option<+T> = None | Some(value: T)

  datatype Result<+T, +E> = Ok(value: T) | Err(error: E)

  /** An opaque Alamofire error (timeout, no connection, a failed
      serialization such as an empty body, a decoding failure); the app only
      forwards it or shows its localized description. */
  datatype TransportError = TransportError(description: string)

  /** What an Alamofire response handler receives. `Completed(s)` is a
      response whose `result` is `.success`, with status code `s`;
      `TransportFailure` is a `.failure` result. For the `responseData` and
      `responseString` handlers of the question uploads, a reply with an
      empty body and a status other than 204 or 205 fails serialization, so
      it arrives as `TransportFailure` whatever its status. */
  datatype Response = Completed(status: int) | TransportFailure(error: TransportError)

  /** Alamofire's `.validate(statusCode: 200..<300)`: a completed response
      outside the 2xx range is turned into a failure. */
  predicate Validated(r: Response)
  {
    r.Completed? && 200 <= r.status < 300
  }

  /** What the upload streams of the services emit on failure: a
      rejection classified from the status code, or the forwarded
      transport error. */
  datatype UploadFailure<+E> = Rejected(reason: E) | Forwarded(error: TransportError)

  /** The status classification shared by every question upload: 400 and
      404 become the two rejections (checked in that order), every other
      completed response emits `true`, a transport failure is forwarded. */
  function ClassifyUpload<E>(r: Response, tooLong: E, badCategory: E): (e: Result<bool, UploadFailure<E>>)
    ensures e.Ok? <==> r.Completed? && r.status != 400 && r.status != 404
    ensures e.Ok? ==> e.value
    ensures r == Completed(400) ==> e == Err(Rejected(tooLong))
    ensures r == Completed(404) ==> e == Err(Rejected(badCategory))
    ensures r.TransportFailure? ==> e == Err(Forwarded(r.error))
  {
    match r
    case Completed(status) =>
      if status == 400 then Err(Rejected(tooLong))
      else if status == 404 then Err(Rejected(badCategory))
      else Ok(true)
    case TransportFailure(err) => Err(Forwarded(err))
  }

  /** Why a validated, decoded fetch failed. */
  datatype FetchFailure = Transport(error: TransportError) | UnacceptableStatus(status: int) | DecodingFailed

  /** `.validate(statusCode: 200..<300).responseDecodable(of:)`: the decoded
      body for a 2xx response whose body decodes, a failure otherwise. */
  function DecodeValidated<T>(r: Response, body: Option<T>): (res: Result<T, FetchFailure>)
    ensures res.Ok? <==> Validated(r) && body.Some?
    ensures res.Ok? ==> res.value == body.value
    ensures r.TransportFailure? ==> res == Err(Transport(r.error))
  {
    match r
    case TransportFailure(err) => Err(Transport(err))
    case Completed(status) =>
      if !(200 <= status < 300) then Err(UnacceptableStatus(status))
      else if body.None? then Err(DecodingFailed)
      else Ok(body.value)
  }

  // ---------------------------------------------------------------------
  // Requests as the service adapters build them
  // ---------------------------------------------------------------------

  datatype HttpMethod = Get | Post | Put | Delete

  datatype Body =
    | NoBody
    | QuestionBody(categoryId: int, question: string)
    | PublicQuestionBody(categoryId: int, question: string, expiredAt: string)
    | AnswerBody(answer: string)
    | KeywordsBody(keywords: seq<string>)

  datatype Request = Request(verb: HttpMethod, url: string, body: Body)

  // ---------------------------------------------------------------------
  // Decimal rendering and parsing of integers (Swift `String(n)`, `Int(s)`)
  // ---------------------------------------------------------------------

  predicate IsDigit(c: char) { '0' <= c <= '9' }

  predicate AllDigits(s: string)
  {
    forall i :: 0 <= i < |s| ==> IsDigit(s[i])
  }

  function DigitChar(d: nat): (c: char)
    requires d < 10
    ensures IsDigit(c) && c as int - '0' as int == d
  {
    ('0' as int + d) as char
  }

  /** The decimal digits of a natural number, most significant first. */
  function Digits(n: nat): (s: string)
    ensures |s| > 0 && AllDigits(s)
    decreases n
  {
    if n < 10 then [DigitChar(n)] else Digits(n / 10) + [DigitChar(n % 10)]
  }

  /** The value of a non-empty string of decimal digits. */
  function DigitsValue(s: string): nat
    requires |s| > 0 && AllDigits(s)
    decreases |s|
  {
    var last := s[|s| - 1] as int - '0' as int;
    if |s| == 1 then last else DigitsValue(s[..|s| - 1]) * 10 + last
  }

  /** Swift's `String(n)` for an `Int`: an optional minus sign and the digits. */
  function DecimalString(n: int): (s: string)
    ensures |s| > 0
    ensures s[0] == '-' <==> n < 0
    ensures n < 0 ==> AllDigits(s[1..])
    ensures n >= 0 ==> AllDigits(s)
  {
    if n < 0 then "-" + Digits(-n) else Digits(n)
  }

  /** Swift's failable `Int(s)`: an optional `+` or `-` sign followed by at
      least one decimal digit; anything else is `nil`. */
  function ParseInt(s: string): (r: Option<int>)
    ensures r.Some? <==>
              |s| > 0 && (AllDigits(s) || ((s[0] == '-' || s[0] == '+') && |s| > 1 && AllDigits(s[1..])))
    ensures r.Some? && s[0] == '-' ==> r.value <= 0
    ensures r.Some? && s[0] != '-' ==> r.value >= 0
  {
    if |s| == 0 then None
    else if s[0] == '-' || s[0] == '+' then
      var rest := s[1..];
      if |rest| > 0 && AllDigits(rest) then
        var v: int := DigitsValue(rest);
        Some(if s[0] == '-' then -v else v)
      else None
    else if AllDigits(s) then Some(DigitsValue(s))
    else None
  }

  lemma {:induction false} DigitsRoundTrip(n: nat)
    ensures DigitsValue(Digits(n)) == n
    decreases n
  {
    if n >= 10 {
      var s := Digits(n);
      assert s[..|s| - 1] == Digits(n / 10);
      DigitsRoundTrip(n / 10);
    }
  }

  /** `Int(String(n))` gives back `n`: the force-unwrap in the question
      upload (`Int(category)!`) can never fail. */
  lemma DecimalRoundTrip(n: int)
    ensures ParseInt(DecimalString(n)) == Some(n)
  {
    if n < 0 {
      assert DecimalString(n)[1..] == Digits(-n);
      DigitsRoundTrip(-n);
    } else {
      DigitsRoundTrip(n);
    }
  }

  /** Different integers render differently. */
  lemma DecimalStringInjective(m: int, n: int)
    ensures DecimalString(m) == DecimalString(n) ==> m == n
  {
    DecimalRoundTrip(m);
    DecimalRoundTrip(n);
  }

  lemma DecimalStringHasNoComma(n: int)
    ensures ',' !in DecimalString(n)
  {
    var s := DecimalString(n);
    forall i | 0 <= i < |s| ensures s[i] != ',' {
      if n < 0 && i > 0 {
        assert s[i] == Digits(-n)[i - 1];
      }
    }
  }

  // ---------------------------------------------------------------------
  // Joining with a separator (Swift `joined(separator:)`) and splitting
  // ---------------------------------------------------------------------

  function Join(parts: seq<string>, sep: char): (r: string)
    ensures |parts| == 0 ==> r == ""
    ensures |parts| > 0 ==> |r| >= |parts[0]| && r[..|parts[0]|] == parts[0]
    ensures |parts| > 1 ==> |r| > |parts[0]| && r[|parts[0]|] == sep
  {
    if |parts| == 0 then ""
    else if |parts| == 1 then parts[0]
    else parts[0] + [sep] + Join(parts[1..], sep)
  }

  /** Splits at every occurrence of `sep`; the inverse of `Join` on parts
      that do not contain the separator. */
  function Split(s: string, sep: char): (parts: seq<string>)
    ensures |parts| >= 1
    ensures forall i :: 0 <= i < |parts| ==> sep !in parts[i]
    decreases |s|
  {
    if |s| == 0 then [""]
    else if s[0] == sep then [""] + Split(s[1..], sep)
    else
      var rest := Split(s[1..], sep);
      [[s[0]] + rest[0]] + rest[1..]
  }

  lemma {:induction false} SplitNoSeparator(a: string, sep: char)
    requires sep !in a
    ensures Split(a, sep) == [a]
    decreases |a|
  {
    if |a| > 0 {
      SplitNoSeparator(a[1..], sep);
      assert [a[0]] + a[1..] == a;
    }
  }

  lemma {:induction false} SplitAtSeparator(a: string, sep: char, b: string)
    requires sep !in a
    ensures Split(a + [sep] + b, sep) == [a] + Split(b, sep)
    decreases |a|
  {
    if |a| > 0 {
      var s := a + [sep] + b;
      assert s[1..] == a[1..] + [sep] + b;
      SplitAtSeparator(a[1..], sep, b);
      assert [a[0]] + a[1..] == a;
    }
  }

  /** Splitting a join gives back the parts, provided none of them contains
      the separator and there is at least one part. */
  lemma {:induction false} SplitJoin(parts: seq<string>, sep: char)
    requires |parts| >= 1
    requires forall i :: 0 <= i < |parts| ==> sep !in parts[i]
    ensures Split(Join(parts, sep), sep) == parts
    decreases |parts|
  {
    if |parts| == 1 {
      SplitNoSeparator(parts[0], sep);
    } else {
      SplitJoin(parts[1..], sep);
      SplitAtSeparator(parts[0], sep, Join(parts[1..], sep));
      assert [parts[0]] + parts[1..] == parts;
    }
  }

  // ---------------------------------------------------------------------
  // Job categories
  // ---------------------------------------------------------------------

  /** The fixed list of the twelve job categories, in display order; the
      category with raw value `k` (1..12) is the `k`-th name. */
  const CategoryNames: seq<string> :=
    ["공통", "인턴", "대외활동", "디자인", "경영기획", "회계",
     "생산/품질관리", "인사", "마케팅", "영업", "IT/개발", "연구개발(R&D)"]

  /** `Category(rawValue: id)?.title`: a title exactly for the ids 1..12. */
  function CategoryTitle(id: int): (r: Option<string>)
    ensures r.Some? <==> 1 <= id <= 12
    ensures r.Some? ==> r.value == CategoryNames[id - 1]
  {
    if 1 <= id <= |CategoryNames| then Some(CategoryNames[id - 1]) else None
  }

  /** `Category(rawValue: id)`: the category with that raw value, if any. */
  function CategoryOf(id: int): (r: Option<int>)
    ensures r.Some? <==> 1 <= id <= 12
    ensures r.Some? ==> r.value == id
  {
    if 1 <= id <= |CategoryNames| then Some(id) else None
  }
}
