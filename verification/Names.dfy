/** Names of Kubernetes objects and label values: pkg/utils/utils.go:14-17 and the two `truncated`
    functions. Characters are ASCII. */
module Names {

  function LowerChar(c: char): char {
    if 'A' <= c <= 'Z' then (c as int - 'A' as int + 'a' as int) as char else c
  }

  /** strings.ToLower. */
  function Lower(s: string): (r: string)
    ensures |r| == |s|
  {
    seq(|s|, i requires 0 <= i < |s| => LowerChar(s[i]))
  }

  /** FormatToDNS1123: lower case, underscores replaced. */
  function FormatToDNS1123(s: string): (r: string)
    ensures |r| == |s|
  {
    seq(|s|, i requires 0 <= i < |s| => if s[i] == '_' then '-' else LowerChar(s[i]))
  }

  lemma {:induction false} FormatIsIdempotent(s: string)
    ensures FormatToDNS1123(FormatToDNS1123(s)) == FormatToDNS1123(s)
  {
  }

  function Decimal(n: nat): string {
    (if n < 10 then "" else Decimal(n / 10)) + [('0' as int + n % 10) as char]
  }

  /** fmt.Sprintf("%s.%s.%d", service, host, port). */
  function EntryName(service: string, host: string, port: nat): string {
    service + "." + host + "." + Decimal(port)
  }

  function TrimDots(s: string): string
    decreases |s|
  {
    if s != "" && s[0] == '.' then TrimDots(s[1..])
    else if s != "" && s[|s| - 1] == '.' then TrimDots(s[..|s| - 1])
    else s
  }

  /** `truncated` of the configuredservice package. */
  function TruncatedByDigest(digest: string -> string, s: string): string {
    if |s| > 62 then digest(s) else TrimDots(s)
  }

  /** `truncated` of the serviceconfig package. */
  function TruncatedToTail(s: string): string {
    if |s| > 62 then TrimDots(s[|s| - 62..]) else TrimDots(s)
  }
}
