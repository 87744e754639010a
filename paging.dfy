/** Query-string arithmetic shared by the list handlers: Go's
    `strconv.Atoi` with a handler-chosen default, and the two rules the
    handlers use to turn a page number into a row offset. */
module Paging {
  import opened Common

  predicate IsDigit(c: char) {
    '0' <= c <= '9'
  }

  predicate AllDigits(s: string) {
    forall i :: 0 <= i < |s| ==> IsDigit(s[i])
  }

  predicate IsSign(c: char) {
    c == '+' || c == '-'
  }

  /** The strings `strconv.Atoi` accepts: an optional `+` or `-`, then one
      or more ASCII digits, and nothing else (no spaces, no `_`). */
  predicate IsAtoiSyntax(s: string) {
    if |s| > 0 && IsSign(s[0]) then |s| > 1 && AllDigits(s[1..])
    else |s| > 0 && AllDigits(s)
  }

  /** The value of a digit string, read most significant digit first. */
  function DigitsValue(s: string): (n: nat)
    requires AllDigits(s)
  {
    if s == [] then 0
    else 10 * DigitsValue(s[..|s| - 1]) + (s[|s| - 1] as int - '0' as int)
  }

  /** `strconv.Atoi(s)` on unbounded integers: `None` is the error return. */
  function Atoi(s: string): (r: Option<int>)
    ensures r.Some? <==> IsAtoiSyntax(s)
    ensures r.Some? && s[0] == '-' ==> r.value <= 0
    ensures r.Some? && s[0] != '-' ==> r.value >= 0
  {
    if |s| > 1 && IsSign(s[0]) && AllDigits(s[1..]) then
      var magnitude: int := DigitsValue(s[1..]);
      Some(if s[0] == '-' then -magnitude else magnitude)
    else if |s| > 0 && !IsSign(s[0]) && AllDigits(s) then
      Some(DigitsValue(s))
    else
      None
  }

  /** The handlers' idiom `v, err := strconv.Atoi(s); if err != nil { v = dflt }`. */
  function AtoiOr(s: string, dflt: int): (r: int)
    ensures !IsAtoiSyntax(s) ==> r == dflt
    ensures s == "" ==> r == dflt
    ensures IsAtoiSyntax(s) ==> Atoi(s) == Some(r)
  {
    match Atoi(s)
    case Some(v) => v
    case None => dflt
  }

  function DigitChar(d: nat): (c: char)
    requires d < 10
    ensures IsDigit(c) && c as int - '0' as int == d
  {
    ('0' as int + d) as char
  }

  /** Decimal notation of a natural number, without leading zeros. */
  function NatDecimal(n: nat): (s: string)
    decreases n
  {
    if n < 10 then [DigitChar(n)] else NatDecimal(n / 10) + [DigitChar(n % 10)]
  }

  /** Decimal notation of an integer, as `strconv.Itoa` writes it. */
  function Decimal(n: int): (s: string) {
    if n < 0 then "-" + NatDecimal(-n) else NatDecimal(n)
  }

  lemma {:induction false} NatDecimalDigits(n: nat)
    ensures |NatDecimal(n)| > 0 && AllDigits(NatDecimal(n))
    ensures DigitsValue(NatDecimal(n)) == n
    decreases n
  {
    if n >= 10 {
      NatDecimalDigits(n / 10);
      var p := NatDecimal(n / 10);
      var s := p + [DigitChar(n % 10)];
      assert s == NatDecimal(n);
      assert s[..|s| - 1] == p;
      assert AllDigits(s) by {
        forall i | 0 <= i < |s| ensures IsDigit(s[i]) {
          if i < |p| { assert s[i] == p[i]; }
        }
      }
    }
  }

  /** `Atoi` reads back what `Decimal` writes: every integer survives
      formatting and parsing unchanged. */
  lemma AtoiDecimal(n: int)
    ensures IsAtoiSyntax(Decimal(n))
    ensures Atoi(Decimal(n)) == Some(n)
  {
    var m: nat := if n < 0 then -n else n;
    NatDecimalDigits(m);
    var d := NatDecimal(m);
    if n < 0 {
      var s := "-" + d;
      assert s[1..] == d;
      assert s == Decimal(n);
    } else {
      assert d[0] != '+' && d[0] != '-' by { assert IsDigit(d[0]); }
    }
  }

  /** A query value in decimal notation overrides every default. */
  lemma AtoiOrDecimal(n: int, dflt: int)
    ensures AtoiOr(Decimal(n), dflt) == n
  {
    AtoiDecimal(n);
  }

  /** The rows on pages 1 .. page-1, counted one page at a time: the
      reference meaning of "the offset at which page `page` starts". */
  function RowsBefore(page: nat, limit: int): (rows: int) {
    if page <= 1 then 0 else RowsBefore(page - 1, limit) + limit
  }

  /** The page rule of `ListCountries`, `ListAttractionsType` and
      `ListHistorical`: pages 0 and 1 start at offset 0, any other page at
      `(page - 1) * limit`. */
  function PageOffset(page: int, limit: int): (offset: int)
    ensures page == 0 ==> offset == 0
    ensures page >= 1 ==> offset == (page - 1) * limit
    ensures page < 0 ==> offset == (page - 1) * limit
  {
    if page == 0 || page == 1 then 0 else (page - 1) * limit
  }

  /** For every positive page, `PageOffset` is the number of rows on the
      pages before it. */
  lemma {:induction false} PageOffsetCountsEarlierPages(page: nat, limit: int)
    requires page >= 1
    ensures PageOffset(page, limit) == RowsBefore(page, limit)
  {
    if page > 1 {
      PageOffsetCountsEarlierPages(page - 1, limit);
      assert (page - 1) * limit == (page - 2) * limit + limit;
    }
  }

  /** Consecutive positive pages are `limit` rows apart. */
  lemma PageOffsetStep(page: int, limit: int)
    requires page >= 1
    ensures PageOffset(page + 1, limit) == PageOffset(page, limit) + limit
  {
    assert page * limit == (page - 1) * limit + limit;
  }

  /** The page rule of `GetChatMessages`, whose test is the inverse of the
      rule above: page 0 and every page above 1 start at offset 0, page 1
      and every negative page at `(page - 1) * limit`. */
  function ChatOffset(page: int, limit: int): (offset: int)
    ensures page >= 0 ==> offset == 0
    ensures page < 0 ==> offset == (page - 1) * limit
  {
    if page == 0 || page > 1 then 0 else (page - 1) * limit
  }

  /** The two page rules agree exactly on pages up to 1 and when the page
      size is 0; on every later page of a non-empty page size the chat
      rule returns the first page again. */
  lemma ChatOffsetAgreesOnlyUpToPageOne(page: int, limit: int)
    ensures ChatOffset(page, limit) == PageOffset(page, limit) <==> page <= 1 || limit == 0
  {
    if page > 1 && limit != 0 {
      assert (page - 1) * limit != 0 by {
        if limit > 0 {
          assert (page - 1) * limit >= limit;
        } else {
          assert (page - 1) * limit <= limit;
        }
      }
    }
  }
}
