/**
 * The client address both API routes derive from the `x-forwarded-for` header:
 * the text before the first comma, or "unknown" when the header is absent or
 * that text is empty.
 */
module Headers {
  import opened Wrappers
  import opened Strings

  const UnknownIp := "unknown"

  /** `s.split(",")[0]`: the text of `s` before its first comma (all of `s` when it has none). */
  function FirstField(s: string): (r: string)
    ensures r <= s
    ensures ',' !in r
    ensures |r| < |s| ==> s[|r|] == ','
  {
    s[..IndexOf(s, ',')]
  }

  /** `req.headers.get("x-forwarded-for")?.split(",")[0] || "unknown"`. */
  function ClientIp(forwardedFor: Option<string>): (ip: string)
    ensures ip != ""
    ensures forwardedFor.Some? && FirstField(forwardedFor.value) != "" ==> ip == FirstField(forwardedFor.value)
    ensures forwardedFor.None? || FirstField(forwardedFor.value) == "" ==> ip == UnknownIp
    ensures ip != UnknownIp ==> forwardedFor.Some? && ip <= forwardedFor.value && ',' !in ip
  {
    match forwardedFor
    case None => UnknownIp
    case Some(header) =>
      var first := FirstField(header);
      if first != "" then first else UnknownIp
  }

  /** The address of a header `prefix,rest` is `prefix` (no comma in it), or "unknown" when `prefix` is empty. */
  lemma {:induction false} ClientIpOfHeader(header: string, prefix: string, rest: string)
    requires ',' !in prefix
    requires header == prefix + "," + rest
    ensures ClientIp(Some(header)) == if prefix == "" then UnknownIp else prefix
  {
    var k := |prefix|;
    assert header[k] == ',';
    forall j | 0 <= j < k ensures header[j] != ',' {
      assert header[j] == prefix[j];
    }
    IndexOfUnique(header, ',', k);
    assert header[..k] == prefix;
  }
}
