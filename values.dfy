/**
 * Plain values the three search composers work with: optional criteria,
 * references to master records and other entities, points in time, and
 * the character classes of the regular expressions the composers apply.
 */
module Values {

  datatype Option<+T> = None | Some(value: T)

  /** A master record or entity (OrderStatus, Sex, Pref, Payment, CustomerStatus), known by its id. */
  datatype Ref = Ref(id: int)

  /**
   * A PHP DateTime: a calendar day number and the second within that day.
   * Time zones and daylight-saving shifts are not modelled.
   */
  datatype DateTime = DateTime(day: int, second: nat)

  /** Strictly earlier in time: the order SQL `<` uses on timestamp columns. */
  predicate Before(a: DateTime, b: DateTime)
  {
    a.day < b.day || (a.day == b.day && a.second < b.second)
  }

  /** `DateTime::modify('+1 days')`: the same time of day, one calendar day later. */
  function AddDay(d: DateTime): DateTime
  {
    DateTime(d.day + 1, d.second)
  }

  /** One day later keeps the time of day, and the times before it are those up to the same time on the next day. */
  lemma AddDaySpec(d: DateTime)
    ensures Before(d, AddDay(d)) && AddDay(d).second == d.second
    ensures forall t :: Before(t, AddDay(d)) <==> t.day <= d.day || (t.day == d.day + 1 && t.second < d.second)
  {
  }

  /**
   * The whitespace the cleaning removes: tab, LF, VT, FF, CR, space, and the
   * ideographic space U+3000. An approximation: the source's `u`-mode `\s`
   * also matches further Unicode spaces (U+00A0, U+2000 to U+200A, and others).
   */
  predicate IsSpace(c: char)
  {
    c == ' ' || c == '\t' || c == '\n' || c == '\U{0B}' || c == '\U{0C}' || c == '\r' || c == '\U{3000}'
  }

  /** PCRE `\d` and `[0-9]` without the `u` modifier: the ASCII digits. */
  predicate IsDigit(c: char)
  {
    '0' <= c <= '9'
  }
}
