/** `get_default_gateway`: the platform's query command and how its captured
    output becomes the result, including the trailing-whitespace trim. */
module Query {
  import opened Process
  import opened Routes

  /** The 25 code points with the Unicode White_Space property, listed one
      by one. */
  const WhiteSpaceCodePoints: set<int> := {
    0x09, 0x0A, 0x0B, 0x0C, 0x0D, 0x20, 0x85, 0xA0, 0x1680,
    0x2000, 0x2001, 0x2002, 0x2003, 0x2004, 0x2005, 0x2006, 0x2007, 0x2008, 0x2009, 0x200A,
    0x2028, 0x2029, 0x202F, 0x205F, 0x3000 }

  /** Rust's `char::is_whitespace`: the Unicode White_Space property, tested
      by code-point ranges. */
  predicate IsWhitespace(c: char): (b: bool)
    ensures b <==> c as int in WhiteSpaceCodePoints
  {
    var n := c as int;
    (0x09 <= n <= 0x0D) || n == 0x20 || n == 0x85 || n == 0xA0 || n == 0x1680
    || (0x2000 <= n <= 0x200A) || n == 0x2028 || n == 0x2029 || n == 0x202F
    || n == 0x205F || n == 0x3000
  }

  /** `str::trim_right` (`trim_end`): the longest prefix of `s` that does
      not end in whitespace, everything after it being whitespace. */
  function TrimEnd(s: string): (r: string)
    ensures r <= s
    ensures r == [] || !IsWhitespace(r[|r| - 1])
    ensures forall i :: |r| <= i < |s| ==> IsWhitespace(s[i])
    decreases |s|
  {
    if s == [] || !IsWhitespace(s[|s| - 1]) then s else TrimEnd(s[..|s| - 1])
  }

  /** The three properties of `TrimEnd` determine it: no other prefix has
      them. */
  lemma TrimEndUnique(s: string, t: string)
    requires t <= s
    requires t == [] || !IsWhitespace(t[|t| - 1])
    requires forall i :: |t| <= i < |s| ==> IsWhitespace(s[i])
    ensures t == TrimEnd(s)
  {
  }

  /** Trailing whitespace added to a string is exactly what the trim takes
      away; in particular the trim is idempotent, and a gateway printed with
      its newline comes back as itself. */
  lemma {:induction false} TrimEndPadded(g: string, pad: string)
    requires forall i :: 0 <= i < |pad| ==> IsWhitespace(pad[i])
    ensures TrimEnd(g + pad) == TrimEnd(g)
    ensures TrimEnd(TrimEnd(g)) == TrimEnd(g)
  {
    var r := TrimEnd(g);
    assert r <= g + pad;
    forall i | |r| <= i < |g + pad| ensures IsWhitespace((g + pad)[i]) {
      if i >= |g| { assert (g + pad)[i] == pad[i - |g|]; }
    }
    TrimEndUnique(g + pad, r);
    TrimEndUnique(r, r);
  }

  /** The shell pipeline `get_default_gateway` hands to `bash -c`: Linux
      lists the IPv4 default route with `ip`, macOS asks `route` for it, and
      both print only the gateway field with `awk`. */
  function DefaultGatewayCommand(p: Platform): (cmd: string)
    ensures p == Linux ==> "ip -4 route list 0/0 | " <= cmd
    ensures p == MacOS ==> "route -n get default | grep gateway | " <= cmd
  {
    match p
    case Linux => "ip -4 route list 0/0 | awk '{print $3}'"
    case MacOS => "route -n get default | grep gateway | awk '{print $2}'"
  }

  /** How `get_default_gateway` turns the captured output into its result:
      on success stdout without trailing whitespace, otherwise stderr as the
      error. */
  function DefaultGatewayResult(out: Output): (r: Result<string>)
    ensures r.Ok? <==> out.status.success
    ensures r.Ok? ==> r.value <= out.stdout
    ensures r.Ok? ==> r.value == [] || !IsWhitespace(r.value[|r.value| - 1])
    ensures r.Ok? ==> forall i :: |r.value| <= i < |out.stdout| ==> IsWhitespace(out.stdout[i])
    ensures r.Err? ==> r.error == out.stderr
  {
    if out.status.success then Ok(TrimEnd(out.stdout)) else Err(out.stderr)
  }

  /** When the query prints a gateway followed by a newline, the result is
      that gateway, as long as it has no trailing whitespace of its own. */
  lemma DefaultGatewayPrinted(status: ExitStatus, gateway: string, stderr: string)
    requires status.success
    requires gateway == [] || !IsWhitespace(gateway[|gateway| - 1])
    ensures DefaultGatewayResult(Output(status, gateway + "\n", stderr)) == Ok(gateway)
  {
    TrimEndPadded(gateway, "\n");
    TrimEndUnique(gateway, gateway);
  }
}
