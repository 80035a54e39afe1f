/** The persisted watch list of the web API (src/tbot/api/watchlist.py): an ordered list of
    upper-case symbols with set-like add and remove. The JSON file is modelled by what was last
    written to it and by what it held when the manager was created. */
module Watchlist {
  import opened Wrappers
  import opened Text

  /** `DEFAULT_SYMBOLS`. */
  const DefaultSymbols: seq<string> := ["QQQM", "AAPL"]

  /** `symbol.upper().strip()`: upper case, without white space at either end, and never longer
      than what was typed. */
  function Normalize(symbol: string): (r: string)
    ensures AllUpper(r) && |r| <= |symbol|
    ensures r == [] || (!IsSpace(r[0]) && !IsSpace(r[|r| - 1]))
  {
    UpperIsUpper(symbol);
    StripKeepsUpper(Upper(symbol));
    Strip(Upper(symbol))
  }

  predicate NoDuplicates(xs: seq<string>) {
    forall i, j :: 0 <= i < j < |xs| ==> xs[i] != xs[j]
  }

  // ----- normalisation -----

  lemma StripKeepsUpper(s: string)
    requires AllUpper(s)
    ensures AllUpper(Strip(s))
  {
    var l := StripLeft(s);
    SliceUpper(s, |s| - |l|, |s|);
    var r := StripRight(l);
    SliceUpper(l, 0, |r|);
  }

  lemma SliceUpper(s: string, lo: int, hi: int)
    requires AllUpper(s) && 0 <= lo <= hi <= |s|
    ensures AllUpper(s[lo..hi])
  {
    forall i | 0 <= i < hi - lo ensures UpperChar(s[lo..hi][i]) == s[lo..hi][i] {
      assert s[lo..hi][i] == s[lo + i];
    }
  }

  /** A string without surrounding white space strips to itself. */
  lemma StripTrimmed(s: string)
    requires s == [] || (!IsSpace(s[0]) && !IsSpace(s[|s| - 1]))
    ensures Strip(s) == s
  {
  }

  /** Normalising twice is normalising once, so a stored symbol is found under its own name. */
  lemma NormalizeIdempotent(symbol: string)
    ensures Normalize(Normalize(symbol)) == Normalize(symbol)
  {
    var n := Normalize(symbol);
    UpperIsUpper(symbol);
    StripKeepsUpper(Upper(symbol));
    UpperOfUpper(n);
    StripTrimmed(n);
  }

  // ----- the list operations on values -----

  /** Appends an already normalised symbol when it is non-empty and absent. */
  function Insert(xs: seq<string>, s: string): (r: (seq<string>, bool))
    ensures r.1 <==> s != [] && s !in xs
    ensures xs <= r.0 && |r.0| == |xs| + (if r.1 then 1 else 0)
    ensures s != [] ==> s in r.0
  {
    if s != [] && s !in xs then (xs + [s], true) else (xs, false)
  }

  /** `add` on the list. */
  function AddTo(xs: seq<string>, symbol: string): (r: (seq<string>, bool))
    ensures r.1 <==> Normalize(symbol) != [] && Normalize(symbol) !in xs
    ensures xs <= r.0 && forall y :: y in r.0 ==> y in xs || y == Normalize(symbol)
  {
    Insert(xs, Normalize(symbol))
  }

  /** `list.remove`: drops the first occurrence, if any. */
  function RemoveFirst(xs: seq<string>, x: string): (r: seq<string>)
    ensures x !in xs ==> r == xs
    ensures x in xs ==> |r| == |xs| - 1
  {
    if xs == [] then []
    else if xs[0] == x then xs[1..]
    else [xs[0]] + RemoveFirst(xs[1..], x)
  }

  /** Drops the first occurrence of an already normalised symbol, reporting whether there was one. */
  function Delete(xs: seq<string>, s: string): (r: (seq<string>, bool))
    ensures r.1 <==> s in xs
    ensures !r.1 ==> r.0 == xs
    ensures r.1 ==> |r.0| == |xs| - 1
  {
    if s in xs then (RemoveFirst(xs, s), true) else (xs, false)
  }

  /** `remove` on the list. */
  function RemoveFrom(xs: seq<string>, symbol: string): (r: (seq<string>, bool))
    ensures r.1 <==> Normalize(symbol) in xs
    ensures !r.1 ==> r.0 == xs
    ensures r.1 ==> |r.0| == |xs| - 1
  {
    Delete(xs, Normalize(symbol))
  }

  /** The position of the first occurrence of `x`. */
  function IndexOf(xs: seq<string>, x: string): (i: nat)
    requires x in xs
    ensures i < |xs| && xs[i] == x && x !in xs[..i]
  {
    if xs[0] == x then 0
    else
      var i := IndexOf(xs[1..], x) + 1;
      assert xs[..i] == [xs[0]] + xs[1..][..i - 1];
      i
  }

  /** Removing cuts out exactly the first occurrence and keeps the others in order; an absent
      symbol leaves the list as it is. */
  lemma {:induction false} RemoveFirstCuts(xs: seq<string>, x: string)
    ensures x !in xs ==> RemoveFirst(xs, x) == xs
    ensures x in xs ==> RemoveFirst(xs, x) == xs[..IndexOf(xs, x)] + xs[IndexOf(xs, x) + 1..]
  {
    if xs != [] && xs[0] != x {
      RemoveFirstCuts(xs[1..], x);
      if x in xs {
        var i := IndexOf(xs[1..], x);
        assert xs[..i + 1] == [xs[0]] + xs[1..][..i];
        assert xs[i + 2..] == xs[1..][i + 1..];
      } else {
        assert xs == [xs[0]] + xs[1..];
      }
    }
  }

  /** Without duplicates, removing a symbol removes it entirely and creates no duplicates. */
  lemma RemoveFirstDistinct(xs: seq<string>, x: string)
    requires NoDuplicates(xs)
    ensures NoDuplicates(RemoveFirst(xs, x))
    ensures x !in RemoveFirst(xs, x)
    ensures forall y :: y in RemoveFirst(xs, x) <==> y in xs && y != x
  {
    RemoveFirstCuts(xs, x);
    if x in xs {
      var i := IndexOf(xs, x);
      CutKeepsDistinct(xs, i);
      CutMembers(xs, i);
    }
  }

  /** The entries of `xs` with the one at `i` cut out, by position. */
  lemma CutAt(xs: seq<string>, i: int, r: seq<string>)
    requires 0 <= i < |xs| && r == xs[..i] + xs[i + 1..]
    ensures |r| == |xs| - 1
    ensures forall a :: 0 <= a < i ==> r[a] == xs[a]
    ensures forall a :: i <= a < |r| ==> r[a] == xs[a + 1]
  {
  }

  lemma CutKeepsDistinct(xs: seq<string>, i: int)
    requires NoDuplicates(xs) && 0 <= i < |xs|
    ensures NoDuplicates(xs[..i] + xs[i + 1..])
  {
    var r := xs[..i] + xs[i + 1..];
    CutAt(xs, i, r);
    forall a, b | 0 <= a < b < |r| ensures r[a] != r[b] {
      var a' := if a < i then a else a + 1;
      var b' := if b < i then b else b + 1;
      assert r[a] == xs[a'] && r[b] == xs[b'] && a' < b';
    }
  }

  lemma CutMembers(xs: seq<string>, i: int)
    requires NoDuplicates(xs) && 0 <= i < |xs|
    ensures forall y :: y in xs[..i] + xs[i + 1..] <==> y in xs && y != xs[i]
  {
    var r := xs[..i] + xs[i + 1..];
    CutAt(xs, i, r);
    forall y | y in xs && y != xs[i] ensures y in r {
      var a :| 0 <= a < |xs| && xs[a] == y;
      if a < i {
        assert r[a] == y;
      } else {
        assert r[a - 1] == y;
      }
    }
    forall y | y in r ensures y in xs && y != xs[i] {
      var a :| 0 <= a < |r| && r[a] == y;
      var a' := if a < i then a else a + 1;
      assert y == xs[a'] && a' != i;
    }
  }

  /** `add` appends exactly when the normalised symbol is new, keeps the list free of
      duplicates, and makes the symbol present. */
  lemma AddToSpec(xs: seq<string>, symbol: string)
    ensures AddTo(xs, symbol).1 <==> Normalize(symbol) != [] && Normalize(symbol) !in xs
    ensures AddTo(xs, symbol).0 == (if AddTo(xs, symbol).1 then xs + [Normalize(symbol)] else xs)
    ensures NoDuplicates(xs) ==> NoDuplicates(AddTo(xs, symbol).0)
    ensures Normalize(symbol) != [] ==> Normalize(symbol) in AddTo(xs, symbol).0
  {
  }

  /** Adding a new symbol and removing it again gives back the list. */
  lemma InsertThenDelete(xs: seq<string>, s: string)
    requires Insert(xs, s).1
    ensures Delete(Insert(xs, s).0, s) == (xs, true)
  {
    var ys := xs + [s];
    assert Insert(xs, s).0 == ys;
    RemoveFirstCuts(ys, s);
    assert IndexOf(ys, s) == |xs|;
    assert ys[..|xs|] == xs && ys[|xs| + 1..] == [];
    assert RemoveFirst(ys, s) == xs;
  }

  lemma RemoveUndoesAdd(xs: seq<string>, symbol: string)
    requires AddTo(xs, symbol).1
    ensures RemoveFrom(AddTo(xs, symbol).0, symbol) == (xs, true)
  {
    InsertThenDelete(xs, Normalize(symbol));
  }

  /** Deleting reports whether the symbol was listed; an absent symbol leaves the list alone,
      and on a list without duplicates the symbol is gone afterwards while every other symbol
      stays. */
  lemma DeleteSpec(xs: seq<string>, s: string)
    ensures var (ys, removed) := Delete(xs, s);
      (removed <==> s in xs)
      && (!removed ==> ys == xs)
      && (removed ==> |ys| == |xs| - 1)
      && (NoDuplicates(xs) ==>
            NoDuplicates(ys) && s !in ys && forall y :: y in ys <==> y in xs && y != s)
  {
    RemoveFirstCuts(xs, s);
    if NoDuplicates(xs) {
      RemoveFirstDistinct(xs, s);
    }
  }

  /** A run of `add` calls. */
  function AddAll(xs: seq<string>, symbols: seq<string>): seq<string>
    decreases |symbols|
  {
    if symbols == [] then xs else AddAll(AddTo(xs, symbols[0]).0, symbols[1..])
  }

  /** The normalised forms of `symbols`, in order. */
  function NormalizeAll(symbols: seq<string>): seq<string> {
    if symbols == [] then [] else [Normalize(symbols[0])] + NormalizeAll(symbols[1..])
  }

  function InsertAll(xs: seq<string>, ns: seq<string>): seq<string>
    decreases |ns|
  {
    if ns == [] then xs else InsertAll(Insert(xs, ns[0]).0, ns[1..])
  }

  lemma {:induction false} AddAllInserts(xs: seq<string>, symbols: seq<string>)
    ensures AddAll(xs, symbols) == InsertAll(xs, NormalizeAll(symbols))
    decreases |symbols|
  {
    if symbols != [] {
      AddAllInserts(AddTo(xs, symbols[0]).0, symbols[1..]);
      var ns := NormalizeAll(symbols);
      assert ns[0] == Normalize(symbols[0]) && ns[1..] == NormalizeAll(symbols[1..]);
    }
  }

  lemma {:induction false} InsertAllKeepsOrder(xs: seq<string>, ns: seq<string>)
    requires NoDuplicates(xs)
    ensures NoDuplicates(InsertAll(xs, ns))
    ensures |xs| <= |InsertAll(xs, ns)| && InsertAll(xs, ns)[..|xs|] == xs
    ensures forall y :: y in InsertAll(xs, ns) ==> y in xs || y in ns
    decreases |ns|
  {
    if ns != [] {
      var ys := Insert(xs, ns[0]).0;
      InsertAllKeepsOrder(ys, ns[1..]);
      var zs := InsertAll(ys, ns[1..]);
      assert zs[..|ys|][..|xs|] == zs[..|xs|];
      assert ys[..|xs|] == xs;
      forall y | y in zs ensures y in xs || y in ns {
        if y in ns[1..] {
          var k :| 0 <= k < |ns[1..]| && ns[1..][k] == y;
          assert ns[k + 1] == y;
        }
      }
    }
  }

  /** Any sequence of `add` calls keeps a duplicate-free list duplicate-free, keeps what was
      there in front in the same order, and only appends normalised symbols it was given. */
  lemma AddAllKeepsOrder(xs: seq<string>, symbols: seq<string>)
    requires NoDuplicates(xs)
    ensures NoDuplicates(AddAll(xs, symbols))
    ensures |xs| <= |AddAll(xs, symbols)| && AddAll(xs, symbols)[..|xs|] == xs
    ensures forall y :: y in AddAll(xs, symbols) ==> y in xs || y in NormalizeAll(symbols)
  {
    AddAllInserts(xs, symbols);
    InsertAllKeepsOrder(xs, NormalizeAll(symbols));
  }

  // ----- the manager -----

  /** The file as `_load` finds it: missing, unreadable or not JSON, or a JSON object with or
      without a "symbols" list. */
  datatype StoredFile = NoFile | Unreadable | Json(symbols: Option<seq<string>>)

  /** `WatchlistManager`: the list and the file contents it last wrote. */
  class WatchlistManager {
    var symbols: seq<string>
    /** What the last `_save` wrote under "symbols"; `None` while nothing has been written. */
    var saved: Option<seq<string>>

    /** `__init__` and `_load`: the stored list, or the defaults when there is none; a missing
        file is created with the defaults. */
    constructor (stored: StoredFile)
      ensures stored.NoFile? ==> symbols == DefaultSymbols && saved == Some(DefaultSymbols)
      ensures stored.Unreadable? ==> symbols == DefaultSymbols && saved == None
      ensures stored.Json? ==> symbols == stored.symbols.GetOr(DefaultSymbols) && saved == None
    {
      match stored
      case NoFile =>
        symbols := DefaultSymbols;
        saved := Some(DefaultSymbols);
      case Unreadable =>
        symbols := DefaultSymbols;
        saved := None;
      case Json(s) =>
        symbols := s.GetOr(DefaultSymbols);
        saved := None;
    }

    /** `get_all`: a copy, so later changes to the manager do not reach the caller. */
    method GetAll() returns (r: seq<string>)
      ensures r == symbols
    {
      r := symbols;
    }

    /** `add`: appends the normalised symbol when it is non-empty and absent, saving the list. */
    method Add(symbol: string) returns (added: bool)
      modifies this
      ensures (symbols, added) == AddTo(old(symbols), symbol)
      ensures added <==> Normalize(symbol) != [] && Normalize(symbol) !in old(symbols)
      ensures saved == if added then Some(symbols) else old(saved)
      ensures NoDuplicates(old(symbols)) ==> NoDuplicates(symbols)
    {
      var s := Normalize(symbol);
      if s != [] && s !in symbols {
        symbols := symbols + [s];
        saved := Some(symbols);
        return true;
      }
      return false;
    }

    /** `remove`: drops the first occurrence of the normalised symbol, saving the list. */
    method Remove(symbol: string) returns (removed: bool)
      modifies this
      ensures (symbols, removed) == RemoveFrom(old(symbols), symbol)
      ensures saved == if removed then Some(symbols) else old(saved)
    {
      var s := Normalize(symbol);
      if s in symbols {
        symbols := RemoveFirst(symbols, s);
        saved := Some(symbols);
        return true;
      }
      return false;
    }

    /** `contains`: the same normalisation as `add` and `remove`. */
    function Contains(symbol: string): (b: bool)
      reads this
      ensures b <==> Normalize(symbol) in symbols
    {
      Normalize(symbol) in symbols
    }

    /** `clear`. */
    method Clear()
      modifies this
      ensures symbols == [] && saved == Some([])
    {
      symbols := [];
      saved := Some(symbols);
    }

    /** `reset`: a fresh copy of the defaults. */
    method Reset()
      modifies this
      ensures symbols == DefaultSymbols && saved == Some(DefaultSymbols)
    {
      symbols := DefaultSymbols;
      saved := Some(symbols);
    }
  }

  // ----- the default list as written -----

  /** The manager's list as `_load` writes it, together with the class-level default list and
      whether the two are one and the same list object. `data.get("symbols", DEFAULT_SYMBOLS)`
      hands out the class attribute itself, not a copy, when the file has no "symbols" entry. */
  datatype SharedDefaults = SharedDefaults(symbols: seq<string>, classDefaults: seq<string>, shared: bool)

  function LoadAsWritten(stored: StoredFile, classDefaults: seq<string>): (st: SharedDefaults)
    ensures st.shared <==> stored == Json(None)
  {
    match stored
    case Json(Some(xs)) => SharedDefaults(xs, classDefaults, false)
    case Json(None) => SharedDefaults(classDefaults, classDefaults, true)
    case _ => SharedDefaults(classDefaults, classDefaults, false)
  }

  /** `add` appends in place, so a shared list grows the class defaults with it. */
  function AddAsWritten(st: SharedDefaults, symbol: string): (r: SharedDefaults)
    ensures r.shared == st.shared && r.symbols == AddTo(st.symbols, symbol).0
    ensures r.classDefaults != st.classDefaults ==> st.shared && r.classDefaults == r.symbols
  {
    var (xs, added) := AddTo(st.symbols, symbol);
    if !added then st
    else SharedDefaults(xs, if st.shared then xs else st.classDefaults, st.shared)
  }

  /** `remove` deletes in place, so a shared list shrinks the class defaults with it. */
  function RemoveAsWritten(st: SharedDefaults, symbol: string): (r: SharedDefaults)
    ensures r.shared == st.shared && r.symbols == RemoveFrom(st.symbols, symbol).0
    ensures r.classDefaults != st.classDefaults ==> st.shared && r.classDefaults == r.symbols
  {
    var (xs, removed) := RemoveFrom(st.symbols, symbol);
    if !removed then st
    else SharedDefaults(xs, if st.shared then xs else st.classDefaults, st.shared)
  }

  /** `reset` copies whatever the class defaults now hold. */
  function ResetAsWritten(st: SharedDefaults): (r: SharedDefaults)
    ensures !r.shared && r.symbols == st.classDefaults
  {
    SharedDefaults(st.classDefaults, st.classDefaults, false)
  }

  /** While shared, the manager's list and the class defaults stay equal under `add` and
      `remove`. */
  lemma SharedStaysEqual(st: SharedDefaults, symbol: string)
    requires st.shared ==> st.symbols == st.classDefaults
    ensures AddAsWritten(st, symbol).shared == st.shared
    ensures st.shared ==> AddAsWritten(st, symbol).symbols == AddAsWritten(st, symbol).classDefaults
    ensures !st.shared ==> AddAsWritten(st, symbol).classDefaults == st.classDefaults
    ensures RemoveAsWritten(st, symbol).shared == st.shared
    ensures st.shared ==> RemoveAsWritten(st, symbol).symbols == RemoveAsWritten(st, symbol).classDefaults
    ensures !st.shared ==> RemoveAsWritten(st, symbol).classDefaults == st.classDefaults
  {
  }

  /** With a file holding `{}`, adding a new symbol and then resetting leaves that symbol in
      the list next to the two defaults, because the add also grew the class-level default list. */
  lemma ResetAfterSharedAdd(symbol: string)
    requires Normalize(symbol) != [] && Normalize(symbol) !in DefaultSymbols
    ensures ResetAsWritten(AddAsWritten(LoadAsWritten(Json(None), DefaultSymbols), symbol)).symbols
            == DefaultSymbols + [Normalize(symbol)]
    ensures ResetAsWritten(AddAsWritten(LoadAsWritten(Json(None), DefaultSymbols), symbol)).symbols
            != DefaultSymbols
  {
    var st := LoadAsWritten(Json(None), DefaultSymbols);
    var grown := AddAsWritten(st, symbol);
    assert grown.classDefaults == DefaultSymbols + [Normalize(symbol)];
    assert |grown.classDefaults| != |DefaultSymbols|;
  }

  /** With a file holding `{}`, removing one of the defaults and then resetting leaves only
      the other one, because the removal also shrank the class-level default list. */
  lemma ResetAfterSharedRemove(symbol: string)
    requires Normalize(symbol) in DefaultSymbols
    ensures ResetAsWritten(RemoveAsWritten(LoadAsWritten(Json(None), DefaultSymbols), symbol)).symbols
            == RemoveFirst(DefaultSymbols, Normalize(symbol))
    ensures |ResetAsWritten(RemoveAsWritten(LoadAsWritten(Json(None), DefaultSymbols), symbol)).symbols| == 1
  {
    var st := LoadAsWritten(Json(None), DefaultSymbols);
    var shrunk := RemoveAsWritten(st, symbol);
    assert shrunk.classDefaults == RemoveFirst(DefaultSymbols, Normalize(symbol));
  }

  /** "AAPL" is such a symbol: the reset then yields QQQM alone. */
  lemma AaplIsDefault()
    ensures Normalize("AAPL") == "AAPL" && RemoveFirst(DefaultSymbols, "AAPL") == ["QQQM"]
  {
    assert Upper("AAPL") == "AAPL";
    StripTrimmed("AAPL");
    assert DefaultSymbols[0] != "AAPL" by {
      assert DefaultSymbols[0][0] == 'Q' && "AAPL"[0] == 'A';
    }
  }

  /** "msft" is such a symbol: the reset then yields QQQM, AAPL and MSFT. */
  lemma MsftIsNew()
    ensures Normalize("msft") == "MSFT" && "MSFT" !in DefaultSymbols
  {
    NormalizeMsft();
    MsftNotDefault();
  }

  lemma MsftNotDefault()
    ensures "MSFT" !in DefaultSymbols
  {
    assert DefaultSymbols[0][0] == 'Q' && DefaultSymbols[1][0] == 'A' && "MSFT"[0] == 'M';
  }

  lemma NormalizeMsft()
    ensures Normalize("msft") == "MSFT"
  {
    assert Upper("msft") == "MSFT";
    StripTrimmed("MSFT");
  }

  /** The same steps on the manager, whose missing "symbols" entry yields a separate list:
      the reset gives back exactly the two defaults. */
  method ResetAfterAdd(symbol: string) returns (after: seq<string>)
    ensures after == DefaultSymbols
  {
    var m := new WatchlistManager(Json(None));
    var _ := m.Add(symbol);
    m.Reset();
    after := m.GetAll();
  }

  /** The same for a removal: the corrected reset gives back exactly the two defaults. */
  method ResetAfterRemove(symbol: string) returns (after: seq<string>)
    ensures after == DefaultSymbols
  {
    var m := new WatchlistManager(Json(None));
    var _ := m.Remove(symbol);
    m.Reset();
    after := m.GetAll();
  }
}
