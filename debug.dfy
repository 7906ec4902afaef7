/**
  The debug-flag normaliser of MultiDomainKernel::setServerDebug: a value is
  "on" when it is boolean true or a string that lower-cases to "true".
*/
module Debug {
  import opened PhpJson

  /** strtolower on one character (ASCII letters only). */
  function LowerChar(c: char): char
  {
    if 'A' <= c <= 'Z' then (c as int - 'A' as int + 'a' as int) as char else c
  }

  /** strtolower on a string. */
  function AsciiLower(s: string): string
  {
    seq(|s|, i requires 0 <= i < |s| => LowerChar(s[i]))
  }

  /** `$v === true || strtolower($v) === 'true'`. Lower-casing a number, a boolean
      or null never yields "true", so only strings are lower-cased here. */
  function DebugFlag(v: Json): bool
  {
    v == JBool(true) || (v.JString? && AsciiLower(v.s) == "true")
  }

  /** The sixteen spellings of "true" that differ only in letter case. */
  predicate SpellsTrue(s: string)
  {
    |s| == 4 &&
    (s[0] == 't' || s[0] == 'T') && (s[1] == 'r' || s[1] == 'R') &&
    (s[2] == 'u' || s[2] == 'U') && (s[3] == 'e' || s[3] == 'E')
  }

  lemma LowerCharIs(c: char, lower: char)
    requires 'a' <= lower <= 'z'
    ensures LowerChar(c) == lower <==> c == lower || c as int == lower as int - 32
  {
  }

  /** The flag is on exactly for boolean true and for "true" in any letter case;
      everything else (false, "false", "", numbers, null, arrays) turns it off.
      The result is a strict boolean, so normalising it again changes nothing. */
  lemma DebugFlagMeaning(v: Json)
    ensures DebugFlag(v) <==> v == JBool(true) || (v.JString? && SpellsTrue(v.s))
    ensures DebugFlag(JBool(DebugFlag(v))) == DebugFlag(v)
  {
    if v.JString? {
      var s := v.s;
      if |s| == 4 {
        LowerCharIs(s[0], 't');
        LowerCharIs(s[1], 'r');
        LowerCharIs(s[2], 'u');
        LowerCharIs(s[3], 'e');
        var l := AsciiLower(s);
        assert l == "true" <==> l[0] == 't' && l[1] == 'r' && l[2] == 'u' && l[3] == 'e';
      } else {
        assert |AsciiLower(s)| != |"true"|;
      }
    }
  }
}
