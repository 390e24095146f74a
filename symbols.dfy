/**
 * Market symbols such as "BTC/USDT": Python's `str.split(sep)` and the
 * two-name unpacking `currency_1_name, currency_2_name = market.split("/")`.
 */
module Symbols {
  import opened Wrappers

  /** Python's `s.split(sep)` for a one-character separator: never empty. */
  function Split(s: string, sep: char): (parts: seq<string>)
    ensures |parts| >= 1
    decreases |s|
  {
    if |s| == 0 then [""]
    else
      var rest := Split(s[1..], sep);
      if s[0] == sep then [""] + rest
      else [[s[0]] + rest[0]] + rest[1..]
  }

  /** The inverse of `Split`: `sep.join(parts)`. */
  function Join(parts: seq<string>, sep: char): string
    requires |parts| >= 1
    decreases |parts|
  {
    if |parts| == 1 then parts[0] else parts[0] + [sep] + Join(parts[1..], sep)
  }

  /** Joining the pieces back with the separator restores the string. */
  lemma {:induction false} JoinSplit(s: string, sep: char)
    ensures Join(Split(s, sep), sep) == s
    decreases |s|
  {
    if |s| > 0 {
      var rest := Split(s[1..], sep);
      JoinSplit(s[1..], sep);
      if s[0] == sep {
        assert Split(s, sep) == [""] + rest;
        assert ([""] + rest)[1..] == rest;
      } else {
        var parts := [[s[0]] + rest[0]] + rest[1..];
        assert Split(s, sep) == parts;
        if |rest| == 1 {
          assert Join(parts, sep) == [s[0]] + rest[0];
        } else {
          assert parts[1..] == rest[1..];
          assert Join(parts, sep) == [s[0]] + rest[0] + [sep] + Join(rest[1..], sep);
        }
        assert [s[0]] + s[1..] == s;
      }
    }
  }

  /** No piece of a split contains the separator. */
  lemma {:induction false} SplitPiecesAvoidSeparator(s: string, sep: char)
    ensures forall i :: 0 <= i < |Split(s, sep)| ==> sep !in Split(s, sep)[i]
    decreases |s|
  {
    if |s| > 0 {
      SplitPiecesAvoidSeparator(s[1..], sep);
    }
  }

  /** A string without the separator splits into itself alone. */
  lemma {:induction false} SplitWithoutSeparator(s: string, sep: char)
    requires sep !in s
    ensures Split(s, sep) == [s]
    decreases |s|
  {
    if |s| > 0 {
      assert sep !in s[1..];
      SplitWithoutSeparator(s[1..], sep);
      assert [s[0]] + s[1..] == s;
    }
  }

  /** Splitting `a + sep + b` where `a` has no separator: `a` is the first piece. */
  lemma {:induction false} SplitAfterPrefix(a: string, sep: char, b: string)
    requires sep !in a
    ensures Split(a + [sep] + b, sep) == [a] + Split(b, sep)
    decreases |a|
  {
    var s := a + [sep] + b;
    if |a| == 0 {
      assert s == [sep] + b;
      assert s[1..] == b;
    } else {
      assert s[1..] == a[1..] + [sep] + b;
      assert sep !in a[1..];
      SplitAfterPrefix(a[1..], sep, b);
      assert [a[0]] + a[1..] == a;
    }
  }

  /** The two currencies of a market symbol. */
  datatype CurrencyPair = CurrencyPair(base: string, quote: string)

  /**
   * `base, quote = market.split("/")`: defined exactly when the symbol has one
   * slash; the unpacking raises `ValueError` for any other number of pieces.
   */
  function SplitPair(market: string): (r: Option<CurrencyPair>)
    ensures r.Some? ==> market == r.value.base + "/" + r.value.quote
    ensures r.Some? ==> '/' !in r.value.base && '/' !in r.value.quote
  {
    var parts := Split(market, '/');
    JoinSplit(market, '/');
    SplitPiecesAvoidSeparator(market, '/');
    if |parts| == 2 then
      assert Join(parts, '/') == parts[0] + ['/'] + parts[1];
      Some(CurrencyPair(parts[0], parts[1]))
    else None
  }

  /** Every slash-free base and quote is recovered from "base/quote". */
  lemma SplitPairOfSymbol(base: string, quote: string)
    requires '/' !in base && '/' !in quote
    ensures SplitPair(base + "/" + quote) == Some(CurrencyPair(base, quote))
  {
    SplitAfterPrefix(base, '/', quote);
    SplitWithoutSeparator(quote, '/');
    assert base + "/" + quote == base + ['/'] + quote;
  }

  /** A symbol with no slash has no currency pair. */
  lemma SplitPairNeedsSlash(market: string)
    requires '/' !in market
    ensures SplitPair(market) == None
  {
    SplitWithoutSeparator(market, '/');
  }

  /** A symbol with two slashes has no currency pair. */
  lemma SplitPairRejectsTwoSlashes(a: string, b: string, c: string)
    requires '/' !in a && '/' !in b && '/' !in c
    ensures SplitPair(a + "/" + b + "/" + c) == None
  {
    SplitAfterPrefix(b, '/', c);
    SplitWithoutSeparator(c, '/');
    assert a + "/" + b + "/" + c == a + ['/'] + (b + ['/'] + c);
    SplitAfterPrefix(a, '/', b + ['/'] + c);
  }
}
