/** The pure parts of `sendPart`: the decision taken when a part request completes, the error
    message it builds, and the progress deltas its upload-progress handler reports. */
module Transfer {
  import opened Wrappers
  import Seqs

  /** The `ETag` response header as `getResponseHeader` returns it: null when missing. */
  datatype ETag = Absent | Present(value: string)

  const UnexpectedResponse: string := "Unexpected response HTTP "

  function DigitChar(d: nat): char
    requires d < 10
  {
    ('0' as int + d) as char
  }

  predicate IsDigits(s: string)
  {
    forall i :: 0 <= i < |s| ==> '0' <= s[i] <= '9'
  }

  /** The decimal text of a status code, as JavaScript's string concatenation writes it. */
  function Decimal(n: nat): (s: string)
    ensures |s| >= 1 && IsDigits(s)
  {
    if n < 10 then [DigitChar(n)] else Decimal(n / 10) + [DigitChar(n % 10)]
  }

  /** Reads decimal digits back into a number. */
  function ParseDecimal(s: string): nat
    requires IsDigits(s)
  {
    if s == [] then 0
    else ParseDecimal(s[..|s| - 1]) * 10 + (s[|s| - 1] as int - '0' as int)
  }

  lemma {:induction false} DecimalRoundTrip(n: nat)
    ensures ParseDecimal(Decimal(n)) == n
  {
    var s := Decimal(n);
    if n >= 10 {
      DecimalRoundTrip(n / 10);
      assert s[..|s| - 1] == Decimal(n / 10);
    }
  }

  /** The message of the error a part request rejects with when the status is not 200. */
  function StatusMessage(status: nat, statusText: string): string
  {
    UnexpectedResponse + Decimal(status) + " " + statusText
  }

  /** What a completed part request yields: its ETag header when the status is 200 (a missing
      header is passed on, not rejected), and otherwise an error naming the status. */
  function ResponseResult(status: nat, statusText: string, etag: ETag): (r: Result<ETag>)
    ensures r.Ok? <==> status == 200
    ensures r.Ok? ==> r.value == etag
    ensures r.Err? ==> r.error.message == StatusMessage(status, statusText)
  {
    if status != 200 then Err(Error(StatusMessage(status, statusText))) else Ok(etag)
  }

  /** The index of the first space in `s`, or `|s|` when there is none. */
  function FirstSpace(s: string): (k: nat)
    ensures k <= |s| && (k < |s| ==> s[k] == ' ')
    ensures forall i :: 0 <= i < k ==> s[i] != ' '
  {
    if s == [] || s[0] == ' ' then 0 else 1 + FirstSpace(s[1..])
  }

  /** Recovers the status code and status text from an error message built by StatusMessage. */
  function ParseStatusMessage(m: string): Option<(nat, string)>
  {
    var p := |UnexpectedResponse|;
    if |m| < p || m[..p] != UnexpectedResponse then None
    else
      var rest := m[p..];
      var k := FirstSpace(rest);
      if k == 0 || k == |rest| || !IsDigits(rest[..k]) then None
      else Some((ParseDecimal(rest[..k]), rest[k + 1..]))
  }

  /** The error message carries the status code and the status text recoverably. */
  lemma StatusMessageRoundTrip(status: nat, statusText: string)
    ensures ParseStatusMessage(StatusMessage(status, statusText)) == Some((status, statusText))
  {
    var d := Decimal(status);
    var m := StatusMessage(status, statusText);
    var p := |UnexpectedResponse|;
    assert m[..p] == UnexpectedResponse;
    var rest := m[p..];
    assert rest == d + " " + statusText;
    assert forall i :: 0 <= i < |d| ==> rest[i] == d[i] && rest[i] != ' ';
    assert rest[|d|] == ' ';
    assert FirstSpace(rest) == |d|;
    assert rest[..|d|] == d;
    assert rest[|d| + 1..] == statusText;
    DecimalRoundTrip(status);
  }

  /** Different failing responses give different messages. */
  lemma StatusMessageInjective(s1: nat, t1: string, s2: nat, t2: string)
    requires StatusMessage(s1, t1) == StatusMessage(s2, t2)
    ensures s1 == s2 && t1 == t2
  {
    StatusMessageRoundTrip(s1, t1);
    StatusMessageRoundTrip(s2, t2);
  }

  /** The last `loaded` value seen, or the handler's initial `lastLoaded` of 0. */
  function LastLoaded(loads: seq<int>): int
  {
    if loads == [] then 0 else loads[|loads| - 1]
  }

  /** The values the upload-progress handler passes on when it sees the `loaded` values
      `loads` in order: each one minus the one before. */
  function Deltas(loads: seq<int>): (d: seq<int>)
    ensures |d| == |loads|
  {
    if loads == [] then []
    else
      var before := loads[..|loads| - 1];
      Deltas(before) + [loads[|loads| - 1] - LastLoaded(before)]
  }

  /** Within one request the reported deltas add up to the last `loaded` value. */
  lemma {:induction false} DeltasSumToLastLoaded(loads: seq<int>)
    ensures Seqs.Sum(Deltas(loads)) == LastLoaded(loads)
  {
    if loads != [] {
      var before := loads[..|loads| - 1];
      DeltasSumToLastLoaded(before);
      Seqs.SumAppend(Deltas(before), loads[|loads| - 1] - LastLoaded(before));
    }
  }
}
