/**
 * The inline-keyboard layout rule of the bot: items are appended to the
 * current row, and a fresh row is opened as soon as the last row holds an
 * even number of items. The rule therefore always leaves a trailing row
 * holding `n % 2` items, which is empty when `n` is even (including 0).
 */
module Layout {

  /** Specification of the layout: the rows the loop produces for `s`. */
  function TwoPerRow<T>(s: seq<T>): (rows: seq<seq<T>>)
    ensures |rows| > 0
  {
    if |s| < 2 then [s] else [s[..2]] + TwoPerRow(s[2..])
  }

  /** All rows, concatenated in order. */
  function Flatten<T>(rows: seq<seq<T>>): seq<T>
  {
    if rows == [] then [] else rows[0] + Flatten(rows[1..])
  }

  /** One iteration of the layout loop: append `x` to the last row, then open
      a fresh row if that last row now has an even length. */
  function Place<T>(rows: seq<seq<T>>, x: T): seq<seq<T>>
    requires |rows| > 0
  {
    var placed := rows[..|rows| - 1] + [rows[|rows| - 1] + [x]];
    if |placed[|placed| - 1]| % 2 == 0 then placed + [[]] else placed
  }

  /** Shape of the layout: `n / 2 + 1` rows, all but the last full (two
      items), the last holding `n % 2` items. */
  lemma {:induction false} TwoPerRowShape<T>(s: seq<T>)
    ensures |TwoPerRow(s)| == |s| / 2 + 1
    ensures forall k :: 0 <= k < |TwoPerRow(s)| - 1 ==> |TwoPerRow(s)[k]| == 2
    ensures |TwoPerRow(s)[|TwoPerRow(s)| - 1]| == |s| % 2
    ensures forall k :: 0 <= k < |TwoPerRow(s)| ==> |TwoPerRow(s)[k]| <= 2
  {
    if |s| >= 2 {
      TwoPerRowShape(s[2..]);
      var rest := TwoPerRow(s[2..]);
      assert TwoPerRow(s) == [s[..2]] + rest;
      forall k | 1 <= k < |TwoPerRow(s)|
        ensures TwoPerRow(s)[k] == rest[k - 1]
      {
      }
    }
  }

  /** The layout loses, duplicates and reorders nothing. */
  lemma {:induction false} FlattenTwoPerRow<T>(s: seq<T>)
    ensures Flatten(TwoPerRow(s)) == s
  {
    if |s| < 2 {
      assert Flatten([s]) == s + Flatten<T>([]);
    } else {
      var rows := TwoPerRow(s);
      assert rows[1..] == TwoPerRow(s[2..]);
      FlattenTwoPerRow(s[2..]);
      assert s == s[..2] + s[2..];
    }
  }

  /** Flattening distributes over concatenation of row sequences. */
  lemma {:induction false} FlattenAppend<T>(a: seq<seq<T>>, b: seq<seq<T>>)
    ensures Flatten(a + b) == Flatten(a) + Flatten(b)
  {
    if a != [] {
      assert (a + b)[1..] == a[1..] + b;
      FlattenAppend(a[1..], b);
    } else {
      assert a + b == b;
    }
  }

  /** One loop iteration extends the specified layout by one item: this is
      what lets the loops of the keyboard builders keep their invariant. */
  lemma {:induction false} TwoPerRowSnoc<T>(s: seq<T>, x: T)
    ensures TwoPerRow(s + [x]) == Place(TwoPerRow(s), x)
  {
    if |s| == 0 {
      assert s + [x] == [x];
    } else if |s| == 1 {
      var t := s + [x];
      assert t[..2] == t && t[2..] == [];
      assert TwoPerRow(t) == [t] + TwoPerRow<T>([]);
    } else {
      var t := s + [x];
      assert t[..2] == s[..2];
      assert t[2..] == s[2..] + [x];
      TwoPerRowSnoc(s[2..], x);
      var rest := TwoPerRow(s[2..]);
      assert TwoPerRow(s) == [s[..2]] + rest;
      var placed := rest[..|rest| - 1] + [rest[|rest| - 1] + [x]];
      var placedAll := TwoPerRow(s)[..|TwoPerRow(s)| - 1] + [TwoPerRow(s)[|TwoPerRow(s)| - 1] + [x]];
      assert placedAll == [s[..2]] + placed;
    }
  }
}
