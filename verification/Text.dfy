/** Python's `str.strip`. */
module Text {

  predicate IsSpace(c: char) {
    var n := c as int;
    9 <= n <= 13 || 28 <= n <= 32 || n == 0x85 || n == 0xA0 || n == 0x1680 || 0x2000 <= n <= 0x200A
    || n == 0x2028 || n == 0x2029 || n == 0x202F || n == 0x205F || n == 0x3000
  }

  function Strip(s: string): string
    decreases |s|
  {
    if s == "" then ""
    else if IsSpace(s[0]) then Strip(s[1..])
    else if IsSpace(s[|s| - 1]) then Strip(s[..|s| - 1])
    else s
  }

  /** Neither empty nor changed by stripping. */
  predicate Plain(s: string) {
    s != "" && !IsSpace(s[0]) && !IsSpace(s[|s| - 1])
  }

  lemma {:induction false} StripIsPlain(s: string)
    ensures Strip(s) == "" || Plain(Strip(s))
    ensures s != "" ==> (Strip(s) == s <==> Plain(s))
    ensures |Strip(s)| <= |s|
    decreases |s|
  {
    if s != "" {
      if IsSpace(s[0]) {
        StripIsPlain(s[1..]);
      } else if IsSpace(s[|s| - 1]) {
        StripIsPlain(s[..|s| - 1]);
      }
    }
  }
}
