/**
 * statsitics_tools/plot_helper.py: `PlotHelper` remembers one colour and
 * one symbol per algorithm, handing out palette entries in the order
 * algorithms are first seen and starting over when the palette is used up.
 */
module PlotHelpers {
  import opened Common

  const Colors: seq<string> := ["tab:blue", "tab:orange", "tab:green", "tab:red", "tab:purple", "tab:brown",
                                "tab:pink", "tab:gray", "tab:olive", "tab:cyan"]

  const Symbols: seq<string> := ["o", "v", "^", "<", ">", "1", "2", "3", "4", "8", "s", "P", "*", "D"]

  /** The position of `x` in `s`. */
  function IndexOf<T(==)>(s: seq<T>, x: T): (k: nat)
    requires x in s
    ensures k < |s| && s[k] == x && forall j :: 0 <= j < k ==> s[j] != x
  {
    if s[0] == x then 0 else 1 + IndexOf(s[1..], x)
  }

  /**
   * The entry an algorithm gets when `seen` lists, in order, the
   * algorithms met so far: the one for its first occurrence, or the next
   * one for a new algorithm; positions wrap around the palette.
   */
  function Assigned(seen: seq<string>, palette: seq<string>, algorithm: string): string
    requires |palette| > 0
  {
    palette[(if algorithm in seen then IndexOf(seen, algorithm) else |seen|) % |palette|]
  }

  /** A memo of `seen` maps exactly those algorithms to their entries; the counter is their number. */
  ghost predicate Memo(dict: map<string, string>, index: int, seen: seq<string>, palette: seq<string>)
    requires |palette| > 0
  {
    Distinct(seen) && index == |seen| && dict.Keys == SetOf(seen) &&
    forall a :: a in dict ==> dict[a] == Assigned(seen, palette, a)
  }

  class PlotHelper {
    var colorDict: map<string, string>
    var colorsIndex: int
    var symbolDict: map<string, string>
    var symbolsIndex: int
    /** The algorithms asked for a colour, and for a symbol, in the order first seen. */
    ghost var colorsSeen: seq<string>
    ghost var symbolsSeen: seq<string>

    ghost predicate Valid()
      reads this
    {
      Memo(colorDict, colorsIndex, colorsSeen, Colors) && Memo(symbolDict, symbolsIndex, symbolsSeen, Symbols)
    }

    constructor ()
      ensures Valid() && colorsSeen == [] && symbolsSeen == []
      ensures colorDict == map[] && colorsIndex == 0 && symbolDict == map[] && symbolsIndex == 0
    {
      colorDict := map[];
      colorsIndex := 0;
      symbolDict := map[];
      symbolsIndex := 0;
      colorsSeen := [];
      symbolsSeen := [];
    }

    /** `get_color`. */
    method GetColor(algorithm: string) returns (color: string)
      requires Valid()
      modifies this
      ensures Valid()
      ensures color == Assigned(old(colorsSeen), Colors, algorithm)
      ensures colorsSeen == AddNew(old(colorsSeen), algorithm)
      ensures symbolDict == old(symbolDict) && symbolsIndex == old(symbolsIndex) && symbolsSeen == old(symbolsSeen)
    {
      if algorithm !in colorDict {
        colorDict := colorDict[algorithm := Colors[colorsIndex % |Colors|]];
        colorsIndex := colorsIndex + 1;
        colorsSeen := colorsSeen + [algorithm];
        MemoExtends(old(colorDict), old(colorsIndex), old(colorsSeen), Colors, algorithm);
      }
      color := colorDict[algorithm];
    }

    /** `get_symbol`. */
    method GetSymbol(algorithm: string) returns (symbol: string)
      requires Valid()
      modifies this
      ensures Valid()
      ensures symbol == Assigned(old(symbolsSeen), Symbols, algorithm)
      ensures symbolsSeen == AddNew(old(symbolsSeen), algorithm)
      ensures colorDict == old(colorDict) && colorsIndex == old(colorsIndex) && colorsSeen == old(colorsSeen)
    {
      if algorithm !in symbolDict {
        symbolDict := symbolDict[algorithm := Symbols[symbolsIndex % |Symbols|]];
        symbolsIndex := symbolsIndex + 1;
        symbolsSeen := symbolsSeen + [algorithm];
        MemoExtends(old(symbolDict), old(symbolsIndex), old(symbolsSeen), Symbols, algorithm);
      }
      symbol := symbolDict[algorithm];
    }
  }

  /** Storing a new algorithm's entry and counting it keeps the memo. */
  lemma MemoExtends(dict: map<string, string>, index: int, seen: seq<string>, palette: seq<string>, algorithm: string)
    requires |palette| > 0 && Memo(dict, index, seen, palette) && algorithm !in dict
    ensures Memo(dict[algorithm := palette[index % |palette|]], index + 1, seen + [algorithm], palette)
  {
    var seen' := seen + [algorithm];
    assert algorithm !in seen;
    forall a | a in seen ensures IndexOf(seen', a) == IndexOf(seen, a) {
      IndexOfAppend(seen, algorithm, a);
    }
    assert IndexOf(seen', algorithm) == |seen| by {
      IndexOfLast(seen, algorithm);
    }
    assert SetOf(seen') == SetOf(seen) + {algorithm};
  }

  lemma {:induction false} IndexOfAppend(s: seq<string>, x: string, a: string)
    requires a in s
    ensures IndexOf(s + [x], a) == IndexOf(s, a)
  {
    if s[0] != a {
      assert (s + [x])[1..] == s[1..] + [x];
      IndexOfAppend(s[1..], x, a);
    }
  }

  lemma {:induction false} IndexOfLast(s: seq<string>, x: string)
    requires x !in s
    ensures IndexOf(s + [x], x) == |s|
  {
    if |s| > 0 {
      assert (s + [x])[1..] == s[1..] + [x];
      IndexOfLast(s[1..], x);
    }
  }

  // ------------------------------------------------------------ properties

  /**
   * Asking again returns what was handed out before: once an algorithm has
   * its entry, any later new algorithm leaves it as it is.
   */
  lemma AssignedStable(seen: seq<string>, palette: seq<string>, a: string, b: string)
    requires |palette| > 0
    ensures Assigned(AddNew(seen, a), palette, a) == Assigned(seen, palette, a)
    ensures a in seen ==> Assigned(AddNew(seen, b), palette, a) == Assigned(seen, palette, a)
  {
    if a !in seen {
      IndexOfLast(seen, a);
    } else if b !in seen {
      IndexOfAppend(seen, b, a);
    }
    if a in seen && b !in seen {
      IndexOfAppend(seen, b, a);
    }
  }

  /**
   * New algorithms get the palette in order, cycling: the k-th distinct
   * algorithm (from 0) gets entry k mod the palette length; the counter
   * grows by one exactly when an algorithm is new; and every entry is a
   * palette member.
   */
  lemma AssignedCycles(seen: seq<string>, palette: seq<string>, a: string, k: nat)
    requires |palette| > 0
    ensures k < |seen| ==> Assigned(seen, palette, seen[k]) == palette[IndexOf(seen, seen[k]) % |palette|]
    ensures Distinct(seen) && k < |seen| ==> Assigned(seen, palette, seen[k]) == palette[k % |palette|]
    ensures a !in seen ==> Assigned(seen, palette, a) == palette[|seen| % |palette|]
    ensures |AddNew(seen, a)| == |seen| + (if a in seen then 0 else 1)
    ensures Assigned(seen, palette, a) in palette
  {
    if Distinct(seen) && k < |seen| {
      var j := IndexOf(seen, seen[k]);
      assert j == k;
    }
  }

  /** The colours and symbols handed out are members of their lists, which have 10 and 14 entries. */
  lemma PalettesHandOutMembers(seen: seq<string>, a: string)
    ensures |Colors| == 10 && |Symbols| == 14
    ensures Assigned(seen, Colors, a) in Colors && Assigned(seen, Symbols, a) in Symbols
    ensures Assigned([], Colors, a) == "tab:blue" && Assigned([], Symbols, a) == "o"
  {
  }
}
