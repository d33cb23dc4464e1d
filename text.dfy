/**
 * Normalisation and guards the composers apply to free-text criteria:
 * whitespace removal, digit extraction for phone fragments, the blank and
 * emptiness tests of the criteria, and the identifier guard.
 */
module Text {
  import opened Values

  /** `preg_replace('/\s+|[　]+/u', '', s)`: every whitespace character removed, the rest kept in order. */
  function StripSpaces(s: string): string
  {
    if s == [] then [] else (if IsSpace(s[0]) then [] else [s[0]]) + StripSpaces(s[1..])
  }

  /** The cleaned term is no longer than the input, holds no whitespace, and equals an input that held none. */
  lemma {:induction false} StripSpacesSpec(s: string)
    ensures |StripSpaces(s)| <= |s|
    ensures forall i :: 0 <= i < |StripSpaces(s)| ==> !IsSpace(StripSpaces(s)[i])
    ensures (forall i :: 0 <= i < |s| ==> !IsSpace(s[i])) ==> StripSpaces(s) == s
  {
    if s != [] {
      StripSpacesSpec(s[1..]);
      assert forall i :: 0 <= i < |s[1..]| ==> s[1..][i] == s[i + 1];
      if !IsSpace(s[0]) {
        assert StripSpaces(s) == [s[0]] + StripSpaces(s[1..]);
        assert s == [s[0]] + s[1..];
      }
    }
  }

  /** Whitespace removal acts character by character: it distributes over concatenation. */
  lemma {:induction false} StripSpacesConcat(a: string, b: string)
    ensures StripSpaces(a + b) == StripSpaces(a) + StripSpaces(b)
  {
    if a != [] {
      assert (a + b)[0] == a[0];
      assert (a + b)[1..] == a[1..] + b;
      StripSpacesConcat(a[1..], b);
    } else {
      assert a + b == b;
    }
  }

  /** Cleaning an already cleaned term changes nothing. */
  lemma StripSpacesIdempotent(s: string)
    ensures StripSpaces(StripSpaces(s)) == StripSpaces(s)
  {
    StripSpacesSpec(s);
    StripSpacesSpec(StripSpaces(s));
  }

  /** `preg_replace('/[^0-9]/', '', s)`: only the ASCII digits of the input, in order. */
  function DigitsOnly(s: string): string
  {
    if s == [] then [] else (if IsDigit(s[0]) then [s[0]] else []) + DigitsOnly(s[1..])
  }

  /**
   * The extracted digits are no more than the input and all digits; an
   * all-digit input is kept whole and an input without digits vanishes, so
   * with `DigitsOnlyConcat` every digit is kept and every non-digit dropped.
   */
  lemma {:induction false} DigitsOnlySpec(s: string)
    ensures |DigitsOnly(s)| <= |s|
    ensures forall i :: 0 <= i < |DigitsOnly(s)| ==> IsDigit(DigitsOnly(s)[i])
    ensures (forall i :: 0 <= i < |s| ==> IsDigit(s[i])) ==> DigitsOnly(s) == s
    ensures (forall i :: 0 <= i < |s| ==> !IsDigit(s[i])) ==> DigitsOnly(s) == []
  {
    if s != [] {
      DigitsOnlySpec(s[1..]);
      assert forall i :: 0 <= i < |s[1..]| ==> s[1..][i] == s[i + 1];
      if IsDigit(s[0]) {
        assert DigitsOnly(s) == [s[0]] + DigitsOnly(s[1..]);
        assert s == [s[0]] + s[1..];
      }
    }
  }

  /** Digit extraction distributes over concatenation, so it keeps each digit where it stood. */
  lemma {:induction false} DigitsOnlyConcat(a: string, b: string)
    ensures DigitsOnly(a + b) == DigitsOnly(a) + DigitsOnly(b)
  {
    if a != [] {
      assert (a + b)[0] == a[0];
      assert (a + b)[1..] == a[1..] + b;
      DigitsOnlyConcat(a[1..], b);
    } else {
      assert a + b == b;
    }
  }

  /** `StringUtil::isBlank` on a string: nothing but whitespace. */
  predicate IsBlank(s: string)
  {
    s == [] || (IsSpace(s[0]) && IsBlank(s[1..]))
  }

  /** A string is blank exactly when cleaning it leaves nothing, so a non-blank term never cleans to "". */
  lemma {:induction false} BlankIffCleansToEmpty(s: string)
    ensures IsBlank(s) <==> StripSpaces(s) == []
  {
    if s != [] {
      BlankIffCleansToEmpty(s[1..]);
    }
  }

  /** `isset($x) && StringUtil::isNotBlank($x)`: the criterion is supplied and not blank. */
  predicate Given(o: Option<string>)
  {
    o.Some? && !IsBlank(o.value)
  }

  /** PHP `empty()` on a string: "" and "0" are empty. */
  predicate PhpEmpty(s: string)
  {
    s == "" || s == "0"
  }

  /** `isset($x) && !empty($x)` on a string criterion. */
  predicate Filled(o: Option<string>)
  {
    o.Some? && !PhpEmpty(o.value)
  }

  predicate AllDigits(s: string)
  {
    forall i :: 0 <= i < |s| ==> IsDigit(s[i])
  }

  /**
   * `preg_match('/^\d{0,10}$/', s)`. Without the `D` modifier PCRE's `$`
   * also matches just before a final "\n", so one trailing newline is admitted.
   */
  predicate MatchesIdPattern(s: string)
  {
    (|s| <= 10 && AllDigits(s)) || (1 <= |s| <= 11 && s[|s| - 1] == '\n' && AllDigits(s[..|s| - 1]))
  }

  /** The digits of a string that matches the identifier pattern, without its final newline. */
  function IdDigits(s: string): (d: string)
    requires MatchesIdPattern(s)
    ensures AllDigits(d) && |d| <= 10
    ensures s == d || s == d + "\n"
  {
    if |s| <= 10 && AllDigits(s) then s else s[..|s| - 1]
  }

  /** The number a string of decimal digits denotes (leading zeros allowed). */
  function DecimalValue(d: string): (n: nat)
    requires AllDigits(d)
  {
    if d == [] then 0 else DecimalValue(d[..|d| - 1]) * 10 + (d[|d| - 1] as int - '0' as int)
  }

  /** The largest value of a PostgreSQL `integer` column. */
  const PG_INT_MAX: nat := 2147483647

  /**
   * The identifier guard of the order and customer search: the cleaned term
   * becomes the id parameter when it matches `^\d{0,10}$`; it is dropped when
   * it is truthy, numerically above 2147483647 and the database is PostgreSQL.
   */
  function GuardedId(cleaned: string, isPostgreSQL: bool): Option<string>
  {
    var multi := if MatchesIdPattern(cleaned) then Some(cleaned) else None;
    if multi.Some? && !PhpEmpty(multi.value) && DecimalValue(IdDigits(multi.value)) > PG_INT_MAX && isPostgreSQL
    then None
    else multi
  }

  /**
   * The guard keeps the term or drops it, and keeps it exactly when it matches
   * the pattern and is not, on PostgreSQL, above the `integer` limit. The
   * `empty()` test in the guard never matters: "" and "0" are both below the limit.
   */
  lemma GuardedIdSpec(cleaned: string, isPostgreSQL: bool)
    ensures GuardedId(cleaned, isPostgreSQL) == None || GuardedId(cleaned, isPostgreSQL) == Some(cleaned)
    ensures GuardedId(cleaned, isPostgreSQL).Some?
        <==> MatchesIdPattern(cleaned) && !(isPostgreSQL && DecimalValue(IdDigits(cleaned)) > PG_INT_MAX)
  {
  }

  /** A cleaned term never ends in a newline, so for it the pattern means exactly "0 to 10 digits". */
  lemma CleanedIdPattern(raw: string)
    ensures MatchesIdPattern(StripSpaces(raw)) <==> |StripSpaces(raw)| <= 10 && AllDigits(StripSpaces(raw))
  {
    var s := StripSpaces(raw);
    StripSpacesSpec(raw);
    if |s| >= 1 {
      assert !IsSpace(s[|s| - 1]);
    }
  }

  /** The decimal values either side of the PostgreSQL `integer` limit. */
  lemma {:induction false} ValuesAtTheLimit()
    ensures DecimalValue("2147483647") == PG_INT_MAX
    ensures DecimalValue("2147483648") == PG_INT_MAX + 1
  {
    assert "2147483647"[..9] == "214748364";
    assert "2147483648"[..9] == "214748364";
    assert "214748364"[..8] == "21474836";
    assert "21474836"[..7] == "2147483";
    assert "2147483"[..6] == "214748";
    assert "214748"[..5] == "21474";
    assert "21474"[..4] == "2147";
    assert "2147"[..3] == "214";
    assert "214"[..2] == "21";
    assert "21"[..1] == "2";
    assert "2"[..0] == "";
  }

  /**
   * The guard at its edges: "2147483647" is kept on PostgreSQL, "2147483648"
   * is dropped there and kept elsewhere, and eleven digits never pass.
   */
  lemma IdGuardAtTheLimit()
    ensures GuardedId("2147483647", true) == Some("2147483647")
    ensures GuardedId("2147483648", true) == None
    ensures GuardedId("2147483648", false) == Some("2147483648")
    ensures GuardedId("99999999999", false) == None
  {
    ValuesAtTheLimit();
  }
}
