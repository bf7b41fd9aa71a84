/**
 * The time-slot table of the booking page and the toggle that adds a slot
 * label to, or removes it from, the list of selected slots.
 */
module Slots {

  datatype TimeSlot = TimeSlot(time: string, available: bool)

  /** The fixed sample table of slots the page offers (the same for every facility and date). */
  const TimeSlots: seq<TimeSlot> := [
    TimeSlot("04:30 PM", true),
    TimeSlot("05:00 PM", true),
    TimeSlot("05:30 PM", true),
    TimeSlot("06:00 PM", true),
    TimeSlot("06:30 PM", true),
    TimeSlot("07:00 PM", false),
    TimeSlot("07:30 PM", true),
    TimeSlot("08:00 PM", true)
  ]

  /** A label the user can click: it names a slot of the table that is marked available. */
  predicate Selectable(time: string)
  {
    exists i :: 0 <= i < |TimeSlots| && TimeSlots[i].time == time && TimeSlots[i].available
  }

  /** Reference definition: the seven labels of the table that are not greyed out. */
  const AvailableLabels: set<string> :=
    {"04:30 PM", "05:00 PM", "05:30 PM", "06:00 PM", "06:30 PM", "07:30 PM", "08:00 PM"}

  predicate NoDuplicates(s: seq<string>)
  {
    forall i, j :: 0 <= i < j < |s| ==> s[i] != s[j]
  }

  /** `s.filter(slot => slot !== x)`: every occurrence of `x` removed, everything else kept. */
  function RemoveAll(s: seq<string>, x: string): (r: seq<string>)
    ensures x !in r
    ensures forall y :: y != x ==> multiset(r)[y] == multiset(s)[y]
    ensures |r| == |s| - multiset(s)[x]
  {
    if s == [] then []
    else
      assert s == [s[0]] + s[1..];
      if s[0] == x then RemoveAll(s[1..], x) else [s[0]] + RemoveAll(s[1..], x)
  }

  /** The slot-list updater of the toggle handler: drop the label if selected, else append it. */
  function Toggle(s: seq<string>, x: string): (r: seq<string>)
    ensures forall y :: y in r <==> (if y == x then x !in s else y in s)
    ensures x !in s ==> |r| == |s| + 1 && r[..|s|] == s && r[|s|] == x
    ensures x in s ==> x !in r && |r| < |s|
  {
    if x in s then
      var r := RemoveAll(s, x);
      assert forall y :: y in r <==> multiset(r)[y] > 0;
      assert forall y :: y in s <==> multiset(s)[y] > 0;
      r
    else s + [x]
  }

  /** Removal distributes over concatenation, so the labels that stay keep their relative order. */
  lemma {:induction false} RemoveAllAppend(a: seq<string>, b: seq<string>, x: string)
    ensures RemoveAll(a + b, x) == RemoveAll(a, x) + RemoveAll(b, x)
  {
    if a == [] {
      assert a + b == b;
    } else {
      assert (a + b)[1..] == a[1..] + b;
      RemoveAllAppend(a[1..], b, x);
    }
  }

  /** Removing a label that is not there changes nothing. */
  lemma {:induction false} RemoveAllAbsent(s: seq<string>, x: string)
    requires x !in s
    ensures RemoveAll(s, x) == s
  {
    if s != [] {
      RemoveAllAbsent(s[1..], x);
    }
  }

  /** Removal keeps a list free of duplicates. */
  lemma {:induction false} RemoveAllNoDuplicates(s: seq<string>, x: string)
    requires NoDuplicates(s)
    ensures NoDuplicates(RemoveAll(s, x))
  {
    if s != [] {
      assert NoDuplicates(s[1..]) by {
        forall i, j | 0 <= i < j < |s[1..]| ensures s[1..][i] != s[1..][j] {
          assert s[1..][i] == s[i + 1] && s[1..][j] == s[j + 1];
        }
      }
      RemoveAllNoDuplicates(s[1..], x);
      if s[0] != x {
        var rest := RemoveAll(s[1..], x);
        assert s[0] !in s[1..] by {
          forall k | 0 <= k < |s[1..]| ensures s[1..][k] != s[0] {
            assert s[1..][k] == s[k + 1];
          }
        }
        assert multiset(s[1..])[s[0]] == 0;
        assert multiset(rest)[s[0]] == 0;
        assert s[0] !in rest;
        var r := [s[0]] + rest;
        forall i, j | 0 <= i < j < |r| ensures r[i] != r[j] {
          if i == 0 {
            assert r[j] == rest[j - 1];
          } else {
            assert r[i] == rest[i - 1] && r[j] == rest[j - 1];
          }
        }
      }
    }
  }

  /** In a list without duplicates a present label occurs exactly once. */
  lemma {:induction false} OccursOnce(s: seq<string>, x: string)
    requires NoDuplicates(s) && x in s
    ensures multiset(s)[x] == 1
  {
    assert s == [s[0]] + s[1..];
    assert s[0] !in s[1..] by {
      forall k | 0 <= k < |s[1..]| ensures s[1..][k] != s[0] {
        assert s[1..][k] == s[k + 1];
      }
    }
    if s[0] == x {
      assert multiset(s[1..])[x] == 0;
    } else {
      assert NoDuplicates(s[1..]) by {
        forall i, j | 0 <= i < j < |s[1..]| ensures s[1..][i] != s[1..][j] {
          assert s[1..][i] == s[i + 1] && s[1..][j] == s[j + 1];
        }
      }
      OccursOnce(s[1..], x);
    }
  }

  /** Toggling keeps the selection free of duplicates. */
  lemma TogglePreservesNoDuplicates(s: seq<string>, x: string)
    requires NoDuplicates(s)
    ensures NoDuplicates(Toggle(s, x))
  {
    if x in s {
      RemoveAllNoDuplicates(s, x);
    } else {
      var r := s + [x];
      forall i, j | 0 <= i < j < |r| ensures r[i] != r[j] {
        if j == |s| {
          assert r[i] == s[i];
        } else {
          assert r[i] == s[i] && r[j] == s[j];
        }
      }
    }
  }

  /** On a list without duplicates, a toggle changes the number of selected slots by exactly one. */
  lemma ToggleLength(s: seq<string>, x: string)
    requires NoDuplicates(s)
    ensures |Toggle(s, x)| == if x in s then |s| - 1 else |s| + 1
  {
    if x in s {
      OccursOnce(s, x);
    }
  }

  /** Toggling an absent label twice gives back exactly the original list. */
  lemma ToggleTwiceFromAbsent(s: seq<string>, x: string)
    requires x !in s
    ensures Toggle(Toggle(s, x), x) == s
  {
    RemoveAllAppend(s, [x], x);
    RemoveAllAbsent(s, x);
    assert RemoveAll([x], x) == [];
  }

  /**
   * Toggling a present label twice moves it to the end: the remaining labels keep their order,
   * and in a list without duplicates the labels and their counts are those of the original.
   */
  lemma ToggleTwiceFromPresent(s: seq<string>, x: string)
    requires x in s
    ensures Toggle(Toggle(s, x), x) == RemoveAll(s, x) + [x]
    ensures NoDuplicates(s) ==> multiset(Toggle(Toggle(s, x), x)) == multiset(s)
  {
    var r := RemoveAll(s, x);
    assert Toggle(r, x) == r + [x];
    if NoDuplicates(s) {
      OccursOnce(s, x);
      assert multiset(r)[x] == 0;
      forall y ensures multiset(r + [x])[y] == multiset(s)[y] {
        assert multiset(r + [x]) == multiset(r) + multiset{x};
      }
      assert multiset(r + [x]) == multiset(s);
    }
  }

  /** The slot marked unavailable can never be clicked. */
  lemma SevenPmNotSelectable()
    ensures !Selectable("07:00 PM")
  {
    forall i | 0 <= i < |TimeSlots| && TimeSlots[i].time == "07:00 PM"
      ensures !TimeSlots[i].available
    {
      assert i == 5;
    }
  }

  /** One label: it can be clicked iff it is one of the seven available labels. */
  lemma SelectableLabel(t: string)
    ensures Selectable(t) <==> t in AvailableLabels
  {
    if Selectable(t) {
      var i :| 0 <= i < |TimeSlots| && TimeSlots[i].time == t && TimeSlots[i].available;
      assert i != 5;
      assert t == TimeSlots[i].time;
    }
    if t in AvailableLabels {
      var i := if t == "04:30 PM" then 0 else if t == "05:00 PM" then 1
               else if t == "05:30 PM" then 2 else if t == "06:00 PM" then 3
               else if t == "06:30 PM" then 4 else if t == "07:30 PM" then 6 else 7;
      assert TimeSlots[i].time == t && TimeSlots[i].available;
    }
  }

  /** Exactly seven labels can be clicked, and '07:00 PM' is not one of them. */
  lemma SelectableLabels()
    ensures forall t :: Selectable(t) <==> t in AvailableLabels
    ensures |AvailableLabels| == 7 && "07:00 PM" !in AvailableLabels
  {
    forall t ensures Selectable(t) <==> t in AvailableLabels {
      SelectableLabel(t);
    }
    SevenPmNotSelectable();
    SelectableLabel("07:00 PM");
    SevenAvailableLabels();
  }

  /** The available labels are seven distinct strings. */
  lemma SevenAvailableLabels()
    ensures |AvailableLabels| == 7
  {
    assert "08:00 PM" !in {"04:30 PM", "05:00 PM", "05:30 PM", "06:00 PM", "06:30 PM", "07:30 PM"} by {
      assert "08:00 PM"[1] == '8';
    }
    CardinalityOfSixLabels();
  }

  /** The six labels from 04:30 PM to 07:30 PM are distinct. */
  lemma CardinalityOfSixLabels()
    ensures |{"04:30 PM", "05:00 PM", "05:30 PM", "06:00 PM", "06:30 PM", "07:30 PM"}| == 6
  {
    var a := {"04:30 PM", "05:00 PM"};
    assert "04:30 PM"[1] != "05:00 PM"[1];
    var b := a + {"05:30 PM"};
    assert "05:30 PM"[3] != "05:00 PM"[3] && "05:30 PM"[1] != "04:30 PM"[1];
    var c := b + {"06:00 PM"};
    assert "06:00 PM"[1] == '6';
    var d := c + {"06:30 PM"};
    assert "06:30 PM"[1] == '6' && "06:30 PM"[3] != "06:00 PM"[3];
    var e := d + {"07:30 PM"};
    assert "07:30 PM"[1] == '7';
    assert e == {"04:30 PM", "05:00 PM", "05:30 PM", "06:00 PM", "06:30 PM", "07:30 PM"};
  }

  /** A list without duplicates has as many distinct labels as entries. */
  lemma {:induction false} DistinctCount(s: seq<string>)
    requires NoDuplicates(s)
    ensures |set t | t in s| == |s|
  {
    if s != [] {
      var rest := s[1..];
      assert NoDuplicates(rest) by {
        forall i, j | 0 <= i < j < |rest| ensures rest[i] != rest[j] {
          assert rest[i] == s[i + 1] && rest[j] == s[j + 1];
        }
      }
      DistinctCount(rest);
      assert s[0] !in rest by {
        forall k | 0 <= k < |rest| ensures rest[k] != s[0] {
          assert rest[k] == s[k + 1];
        }
      }
      assert (set t | t in s) == (set t | t in rest) + {s[0]} by {
        assert s == [s[0]] + rest;
      }
    }
  }

  /** A subset has no more elements than its superset. */
  lemma {:induction false} SubsetNoLarger(a: set<string>, b: set<string>)
    requires a <= b
    ensures |a| <= |b|
    decreases |a|
  {
    if a != {} {
      var x :| x in a;
      SubsetNoLarger(a - {x}, b - {x});
    }
  }

  /** A duplicate-free selection of clickable labels holds at most seven slots. */
  lemma AtMostSevenSlots(s: seq<string>)
    requires NoDuplicates(s) && forall t :: t in s ==> Selectable(t)
    ensures |s| <= 7
  {
    var labels := set t | t in s;
    forall t | t in labels ensures t in AvailableLabels {
      SelectableLabel(t);
    }
    DistinctCount(s);
    SevenAvailableLabels();
    SubsetNoLarger(labels, AvailableLabels);
  }
}
