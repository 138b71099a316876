/** Assembling the extracted fields into the summary block: labelled lines
    in a fixed order, joined by a separator, and no summary at all when
    there is nothing to show. */
module Composer {

  import opened Wrappers
  import opened Extraction

  const NameLabel: string := "Name: "
  const RankLabel: string := "Rank: "
  const ScrollLabel: string := "Scroll: "

  /** The string that joins the lines. As in the source, it is a backslash
      followed by `n` (two characters), not a newline. */
  const Separator: string := "\\n"

  /** The sum of the lengths of `parts`. */
  function TotalLength(parts: seq<string>): nat {
    if parts == [] then 0 else |parts[0]| + TotalLength(parts[1..])
  }

  /** Python's `sep.join(parts)`: the parts in order with `sep` between
      neighbours. It starts with the first part and adds one separator per
      pair of neighbours to the parts' lengths. */
  function Join(sep: string, parts: seq<string>): (r: string)
    ensures parts == [] ==> r == ""
    ensures parts != [] ==> parts[0] <= r
    ensures parts != [] ==> |r| == TotalLength(parts) + |sep| * (|parts| - 1)
  {
    if |parts| == 0 then ""
    else if |parts| == 1 then parts[0]
    else parts[0] + sep + Join(sep, parts[1..])
  }

  /** Appending a part after at least one other puts the separator and then
      that part after the join of the others, so the parts appear in order,
      each after a separator. */
  lemma {:induction false} JoinAppend(sep: string, parts: seq<string>, x: string)
    requires parts != []
    ensures Join(sep, parts + [x]) == Join(sep, parts) + sep + x
    decreases |parts|
  {
    if |parts| == 1 {
      assert (parts + [x])[1..] == [x];
    } else {
      assert (parts + [x])[1..] == parts[1..] + [x];
      JoinAppend(sep, parts[1..], x);
    }
  }

  /** The position of a line's label in the fixed order Name, Rank, Scroll. */
  function Slot(line: string): nat {
    if NameLabel <= line then 0
    else if RankLabel <= line then 1
    else 2
  }

  lemma SlotOfLabelled(value: string)
    ensures Slot(NameLabel + value) == 0
    ensures Slot(RankLabel + value) == 1
    ensures Slot(ScrollLabel + value) == 2
  {
    assert (RankLabel + value)[0] == 'R';
    assert (ScrollLabel + value)[0] == 'S';
  }

  /** One of the labelled lines of a non-empty field of `f`. */
  predicate IsPresentLine(f: Fields, line: string) {
    (f.name != "" && line == NameLabel + f.name) ||
    (f.rank != "" && line == RankLabel + f.rank) ||
    (f.quote != "" && line == ScrollLabel + f.quote)
  }

  /** The label order is kept: each line's label comes strictly after the
      one before it. */
  predicate InSlotOrder(lines: seq<string>) {
    forall i, j :: 0 <= i < j < |lines| ==> Slot(lines[i]) < Slot(lines[j])
  }

  /** The lines of the summary: one labelled line for each non-empty field and
      none for an empty one, in the order Name, Rank, Scroll. */
  function SummaryLines(f: Fields): (lines: seq<string>)
    ensures forall line :: line in lines ==> IsPresentLine(f, line)
    ensures forall line :: IsPresentLine(f, line) ==> line in lines
    ensures InSlotOrder(lines)
  {
    SlotOfLabelled(f.name);
    SlotOfLabelled(f.rank);
    SlotOfLabelled(f.quote);
    (if f.name != "" then [NameLabel + f.name] else []) +
    (if f.rank != "" then [RankLabel + f.rank] else []) +
    (if f.quote != "" then [ScrollLabel + f.quote] else [])
  }

  /** Two sequences in strict slot order with the same elements are equal. */
  lemma {:induction false} InSlotOrderUnique(a: seq<string>, b: seq<string>)
    requires InSlotOrder(a) && InSlotOrder(b)
    requires forall x :: x in a <==> x in b
    ensures a == b
  {
    assert a != [] ==> a[0] in b;
    assert b != [] ==> b[0] in a;
    if a != [] && b != [] {
      var k :| 0 <= k < |b| && b[k] == a[0];
      var m :| 0 <= m < |a| && a[m] == b[0];
      assert k == 0;
      forall x | x in a[1..] ensures x in b[1..] {
        var i :| 1 <= i < |a| && a[i] == x;
        assert Slot(a[0]) < Slot(a[i]);
        assert x in b;
        var j :| 0 <= j < |b| && b[j] == x;
        assert j != 0;
        assert b[1..][j - 1] == x;
      }
      forall x | x in b[1..] ensures x in a[1..] {
        var i :| 1 <= i < |b| && b[i] == x;
        assert Slot(b[0]) < Slot(b[i]);
        assert x in a;
        var j :| 0 <= j < |a| && a[j] == x;
        assert j != 0;
        assert a[1..][j - 1] == x;
      }
      InSlotOrderUnique(a[1..], b[1..]);
      assert a == [a[0]] + a[1..];
      assert b == [b[0]] + b[1..];
    }
  }

  /** The three properties in the contract of `SummaryLines` determine its
      result: any list of lines with them is the summary's list. */
  lemma SummaryLinesDetermined(f: Fields, lines: seq<string>)
    requires forall line :: line in lines ==> IsPresentLine(f, line)
    requires forall line :: IsPresentLine(f, line) ==> line in lines
    requires InSlotOrder(lines)
    ensures lines == SummaryLines(f)
  {
    InSlotOrderUnique(lines, SummaryLines(f));
  }

  /** `"\\n".join(parts) if parts else None` over the summary's lines. The
      summary is absent exactly when every field is empty, so it is never
      the empty string; when present it starts with its first line. */
  function Summary(f: Fields): (r: Option<string>)
    ensures r.None? <==> f.name == "" && f.rank == "" && f.quote == ""
    ensures r.Some? ==> r.value != ""
    ensures r.Some? ==> r.value == Join(Separator, SummaryLines(f))
    ensures r.Some? && f.name != "" ==> NameLabel + f.name <= r.value
  {
    var parts := SummaryLines(f);
    if parts != [] then Some(Join(Separator, parts)) else None
  }

  /** With all three fields non-empty the summary is exactly the three lines
      in order, separated by the separator. */
  lemma SummaryOfAllThree(f: Fields)
    requires f.name != "" && f.rank != "" && f.quote != ""
    ensures Summary(f) == Some((NameLabel + f.name) + Separator + (RankLabel + f.rank) + Separator + (ScrollLabel + f.quote))
  {
    var parts := SummaryLines(f);
    assert parts == [NameLabel + f.name, RankLabel + f.rank, ScrollLabel + f.quote];
    JoinOfThree(Separator, NameLabel + f.name, RankLabel + f.rank, ScrollLabel + f.quote);
  }

  lemma JoinOfThree(sep: string, x: string, y: string, z: string)
    ensures Join(sep, [x, y, z]) == x + sep + y + sep + z
  {
    assert [y, z][1..] == [z];
    assert Join(sep, [y, z]) == y + sep + z;
    assert [x, y, z][1..] == [y, z];
    assert Join(sep, [x, y, z]) == x + sep + (y + sep + z);
  }

}
