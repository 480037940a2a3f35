/** The gamemode tab strip: which tab is active is read back from the
    location path, and a click navigates to that tab's path. */
module Tabs {

  const Gamemodes: seq<string> :=
    ["diamond_op", "shieldless_smp", "iron_pot", "neth_sword", "crossbow", "spleef", "ice", "sumo", "tnt"]

  /** The buttons in display order: "overall" first, then the gamemodes. */
  const TabNames: seq<string> := ["overall"] + Gamemodes

  const ActiveClass: string := "tab active"
  const PlainClass: string := "tab"

  /** `parts.join("/")`. */
  function Join(parts: seq<string>): string
    requires |parts| >= 1
  {
    if |parts| == 1 then parts[0] else parts[0] + "/" + Join(parts[1..])
  }

  /** `s.split("/")`: the pieces between separators, which contain none,
      and which join back to `s`. */
  function Split(s: string): (parts: seq<string>)
    ensures |parts| >= 1
    ensures forall i :: 0 <= i < |parts| ==> '/' !in parts[i]
    ensures Join(parts) == s
  {
    if |s| == 0 then [""]
    else
      var rest := Split(s[1..]);
      if s[0] == '/' then
        assert Join([""] + rest) == "" + "/" + Join(rest) by {
          assert ([""] + rest)[1..] == rest;
        }
        [""] + rest
      else
        var parts := [[s[0]] + rest[0]] + rest[1..];
        assert Join(parts) == s by {
          if |rest| > 1 {
            assert parts[1..] == rest[1..];
            assert Join(rest) == rest[0] + "/" + Join(rest[1..]);
          }
          assert s == [s[0]] + s[1..];
        }
        parts
  }

  /** Splitting a piece with no separator followed by "/" and more text:
      the piece comes first, then the pieces of the rest. */
  lemma {:induction false} SplitAfterPiece(a: string, t: string)
    requires '/' !in a
    ensures Split(a + "/" + t) == [a] + Split(t)
  {
    if |a| == 0 {
      assert a + "/" + t == "/" + t;
      assert ("/" + t)[1..] == t;
    } else {
      SplitAfterPiece(a[1..], t);
      assert (a + "/" + t)[1..] == a[1..] + "/" + t;
      assert [a[0]] + a[1..] == a;
    }
  }

  lemma {:induction false} SplitPiece(a: string)
    requires '/' !in a
    ensures Split(a) == [a]
  {
    if |a| > 0 {
      SplitPiece(a[1..]);
      assert [a[0]] + a[1..] == a;
    }
  }

  /** Join and split are inverse on pieces without separators. */
  lemma {:induction false} SplitJoin(parts: seq<string>)
    requires |parts| >= 1
    requires forall i :: 0 <= i < |parts| ==> '/' !in parts[i]
    ensures Split(Join(parts)) == parts
  {
    if |parts| == 1 {
      SplitPiece(parts[0]);
    } else {
      SplitJoin(parts[1..]);
      SplitAfterPiece(parts[0], Join(parts[1..]));
    }
  }

  /** `pathname.split("/")[2] || "overall"`. */
  function ActiveTab(path: string): (tab: string)
    ensures tab == "overall" <==> |Split(path)| <= 2 || Split(path)[2] == "" || Split(path)[2] == "overall"
    ensures tab != "overall" ==> tab == Split(path)[2]
  {
    var parts := Split(path);
    if |parts| > 2 && parts[2] != "" then parts[2] else "overall"
  }

  /** `getTabClass(tab)`. */
  function TabClass(tab: string, path: string): (c: string)
    ensures c == ActiveClass <==> tab == ActiveTab(path)
    ensures c != ActiveClass ==> c == PlainClass
  {
    if tab == ActiveTab(path) then ActiveClass else PlainClass
  }

  /** Where a click on a tab navigates. */
  function TabPath(tab: string): string { "/rankings/" + tab }

  /** Round trip: a tab whose name has no "/" is active on its own path. */
  lemma TabPathRoundTrip(tab: string)
    requires '/' !in tab && tab != ""
    ensures ActiveTab(TabPath(tab)) == tab
  {
    var parts := ["", "rankings", tab];
    assert Join(parts) == TabPath(tab) by {
      assert parts[1..] == ["rankings", tab];
      assert parts[1..][1..] == [tab];
      assert Join(parts[1..]) == "rankings" + "/" + tab;
      assert Join(parts) == "" + "/" + ("rankings" + "/" + tab);
    }
    SplitJoin(parts);
  }

  lemma TabNamesDistinct()
    ensures forall i, j :: 0 <= i < j < |TabNames| ==> TabNames[i] != TabNames[j]
  {
  }

  /** On any path at most one button carries the active class, and after a
      click on a tab exactly that tab does. */
  lemma OneActiveTab(path: string, i: nat, j: nat)
    requires i < |TabNames| && j < |TabNames|
    requires TabClass(TabNames[i], path) == ActiveClass && TabClass(TabNames[j], path) == ActiveClass
    ensures i == j
  {
    TabNamesDistinct();
  }

  lemma ClickActivatesTab(k: nat, i: nat)
    requires k < |TabNames| && i < |TabNames|
    ensures TabClass(TabNames[i], TabPath(TabNames[k])) == ActiveClass <==> i == k
  {
    assert '/' !in TabNames[k];
    TabPathRoundTrip(TabNames[k]);
    TabNamesDistinct();
  }
}
