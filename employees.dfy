/**
 * The employees page (app/employees/page.tsx): the work-day checkboxes of
 * the employee form, the list's work-day labels, and the page's load,
 * create, edit and deactivate handlers.
 */
module Employees {
  import opened Wrappers
  import opened Text
  import opened Web

  // ---------------------------------------------------------------------
  // Sorted sets of weekdays

  /** Ascending, repeats allowed. */
  predicate Sorted(s: seq<int>) {
    forall i, j :: 0 <= i < j < |s| ==> s[i] <= s[j]
  }

  predicate NoRepeats(s: seq<int>) {
    forall i, j :: 0 <= i < j < |s| ==> s[i] != s[j]
  }

  /** A set of weekdays as the form keeps it: strictly ascending, so sorted and without repeats. */
  predicate Canonical(s: seq<int>) {
    forall i, j :: 0 <= i < j < |s| ==> s[i] < s[j]
  }

  lemma CanonicalIff(s: seq<int>)
    ensures Canonical(s) <==> Sorted(s) && NoRepeats(s)
  {
  }

  /** A sorted list stays sorted under a head no larger than its first element. */
  lemma SortedCons(h: int, t: seq<int>)
    requires Sorted(t) && (t != [] ==> h <= t[0])
    ensures Sorted([h] + t)
  {
    var r := [h] + t;
    forall i, j | 0 <= i < j < |r| ensures r[i] <= r[j] {
      if i == 0 {
        assert r[j] == t[j - 1] && t[0] <= t[j - 1];
      } else {
        assert r[i] == t[i - 1] && r[j] == t[j - 1];
      }
    }
  }

  /** Inserts `x` into a sorted list after the elements not above it. */
  function Insert(x: int, s: seq<int>): (r: seq<int>)
    requires Sorted(s)
    ensures Sorted(r) && multiset(r) == multiset(s) + multiset{x}
    ensures |r| == |s| + 1 && (r[0] == x || (s != [] && r[0] == s[0]))
  {
    if s == [] then [x]
    else if x <= s[0] then
      SortedCons(x, s);
      [x] + s
    else
      var rest := Insert(x, s[1..]);
      assert s == [s[0]] + s[1..];
      SortedCons(s[0], rest);
      [s[0]] + rest
  }

  /** `[...].sort((a, b) => a - b)`: the numbers in ascending order. */
  function SortAscending(s: seq<int>): (r: seq<int>)
    ensures Sorted(r) && multiset(r) == multiset(s)
  {
    if s == [] then []
    else
      assert s == [s[0]] + s[1..];
      Insert(s[0], SortAscending(s[1..]))
  }

  /** The head of a sorted list is its least element. */
  lemma SortedHeadIsLeast(s: seq<int>)
    requires Sorted(s) && s != []
    ensures forall y :: y in multiset(s) ==> s[0] <= y
  {
    forall y | y in multiset(s) ensures s[0] <= y {
      assert y in s;
      var i :| 0 <= i < |s| && s[i] == y;
    }
  }

  /** Two non-empty sorted lists with the same elements start with the same element. */
  lemma SortedHeadsAgree(a: seq<int>, b: seq<int>)
    requires Sorted(a) && Sorted(b) && a != [] && b != [] && multiset(a) == multiset(b)
    ensures a[0] == b[0]
  {
    SortedHeadIsLeast(a);
    SortedHeadIsLeast(b);
    assert a[0] in multiset(b) && b[0] in multiset(a);
  }

  /** Dropping the head removes one occurrence of it. */
  lemma TailElements(s: seq<int>)
    requires s != []
    ensures multiset(s[1..]) == multiset(s) - multiset{s[0]}
  {
    assert s == [s[0]] + s[1..];
  }

  /** Two ascending lists with the same elements are equal: sorting has only one answer. */
  lemma {:induction false} SortedUnique(a: seq<int>, b: seq<int>)
    requires Sorted(a) && Sorted(b) && multiset(a) == multiset(b)
    ensures a == b
    decreases |a|
  {
    assert |b| == |multiset(b)| == |multiset(a)| == |a|;
    if a != [] {
      SortedHeadsAgree(a, b);
      TailElements(a);
      TailElements(b);
      SortedUnique(a[1..], b[1..]);
      assert a == [a[0]] + a[1..] && b == [b[0]] + b[1..];
    }
  }

  /** `s.filter((d) => d !== x)`: every occurrence of `x` removed, the rest in order. */
  function RemoveAll(s: seq<int>, x: int): (r: seq<int>)
    ensures x !in r && |r| <= |s|
    ensures forall y :: y != x ==> multiset(r)[y] == multiset(s)[y]
  {
    if s == [] then []
    else
      assert s == [s[0]] + s[1..];
      if s[0] == x then RemoveAll(s[1..], x) else [s[0]] + RemoveAll(s[1..], x)
  }

  /** Removing keeps the order of what is left: it distributes over concatenation. */
  lemma {:induction false} RemoveAllAppend(a: seq<int>, b: seq<int>, x: int)
    ensures RemoveAll(a + b, x) == RemoveAll(a, x) + RemoveAll(b, x)
    decreases |a|
  {
    if a == [] {
      assert a + b == b;
    } else {
      assert (a + b)[1..] == a[1..] + b;
      RemoveAllAppend(a[1..], b, x);
    }
  }

  /** What is left after removing is all taken from the list. */
  lemma RemoveAllWithin(s: seq<int>, x: int)
    ensures forall y :: y in RemoveAll(s, x) ==> y in s
  {
    forall y | y in RemoveAll(s, x) ensures y in s {
      assert y in multiset(RemoveAll(s, x));
    }
  }

  /** The tail of a strictly ascending list is strictly ascending and above its head. */
  lemma CanonicalTail(s: seq<int>)
    requires Canonical(s) && s != []
    ensures Canonical(s[1..]) && forall y :: y in s[1..] ==> s[0] < y
  {
    var t := s[1..];
    forall i, j | 0 <= i < j < |t| ensures t[i] < t[j] {
      assert t[i] == s[i + 1] && t[j] == s[j + 1];
    }
    forall y | y in t ensures s[0] < y {
      var m :| 0 <= m < |t| && t[m] == y;
      assert s[m + 1] == y;
    }
  }

  /** A head below every element of a strictly ascending list keeps it strictly ascending. */
  lemma CanonicalCons(h: int, t: seq<int>)
    requires Canonical(t) && forall y :: y in t ==> h < y
    ensures Canonical([h] + t)
  {
    var r := [h] + t;
    forall i, j | 0 <= i < j < |r| ensures r[i] < r[j] {
      assert r[j] == t[j - 1] && t[j - 1] in t;
      if i > 0 {
        assert r[i] == t[i - 1];
      }
    }
  }

  /** Removing from an ascending list without repeats leaves one. */
  lemma {:induction false} RemoveAllCanonical(s: seq<int>, x: int)
    requires Canonical(s)
    ensures Canonical(RemoveAll(s, x))
    decreases |s|
  {
    if s != [] {
      var t := s[1..];
      CanonicalTail(s);
      RemoveAllCanonical(t, x);
      if s[0] != x {
        RemoveAllWithin(t, x);
        CanonicalCons(s[0], RemoveAll(t, x));
      }
    }
  }

  /** Having no repeats is having every count at most one. */
  lemma {:induction false} NoRepeatsCounts(s: seq<int>)
    ensures NoRepeats(s) <==> forall y :: multiset(s)[y] <= 1
    decreases |s|
  {
    if s != [] {
      var t := s[1..];
      NoRepeatsCounts(t);
      assert s == [s[0]] + t;
      if NoRepeats(s) {
        assert s[0] !in t;
        assert NoRepeats(t) by {
          forall i, j | 0 <= i < j < |t| ensures t[i] != t[j] {
            assert t[i] == s[i + 1] && t[j] == s[j + 1];
          }
        }
      } else {
        var i, j :| 0 <= i < j < |s| && s[i] == s[j];
        if i == 0 {
          assert s[j] in t;
          assert multiset(s)[s[0]] >= 2;
        } else {
          assert !NoRepeats(t) by {
            assert t[i - 1] == s[i] && t[j - 1] == s[j];
          }
          var y :| multiset(t)[y] > 1;
          assert multiset(s)[y] > 1;
        }
      }
    }
  }

  /** `handleDayToggle(day)` on the form's work days. */
  function DayToggle(days: seq<int>, day: int): (r: seq<int>)
    ensures day in days ==> day !in r && forall y :: y != day ==> multiset(r)[y] == multiset(days)[y]
    ensures day !in days ==> Sorted(r) && multiset(r) == multiset(days) + multiset{day}
  {
    if day in days then RemoveAll(days, day) else SortAscending(days + [day])
  }

  /** The toggle keeps the work days ascending and without repeats. */
  lemma ToggleCanonical(days: seq<int>, day: int)
    requires Canonical(days)
    ensures Canonical(DayToggle(days, day))
  {
    if day in days {
      RemoveAllCanonical(days, day);
    } else {
      var r := DayToggle(days, day);
      CanonicalIff(days);
      NoRepeatsCounts(days);
      forall y ensures multiset(r)[y] <= 1 {
        if y == day {
          assert y !in multiset(days);
        }
      }
      NoRepeatsCounts(r);
      CanonicalIff(r);
    }
  }

  /** Toggling the same day twice gives the work days back. */
  lemma ToggleTwice(days: seq<int>, day: int)
    requires Canonical(days)
    ensures DayToggle(DayToggle(days, day), day) == days
  {
    CanonicalIff(days);
    NoRepeatsCounts(days);
    var rr := DayToggle(DayToggle(days, day), day);
    if day in days {
      ToggleOffOn(days, day);
    } else {
      ToggleOnOff(days, day);
    }
    CanonicalIff(rr);
    SortedUnique(rr, days);
  }

  /** Removing a day that is there and adding it back gives a sorted list with the old elements. */
  lemma ToggleOffOn(days: seq<int>, day: int)
    requires day in days && forall y :: multiset(days)[y] <= 1
    ensures var rr := DayToggle(DayToggle(days, day), day);
      Sorted(rr) && multiset(rr) == multiset(days)
  {
    var r := DayToggle(days, day);
    var rr := DayToggle(r, day);
    assert day !in r;
    assert rr == SortAscending(r + [day]);
    assert multiset(days)[day] == 1;
    forall y ensures multiset(rr)[y] == multiset(days)[y] {
      if y != day {
        assert multiset(r + [day])[y] == multiset(r)[y];
      }
    }
    assert multiset(rr) == multiset(days);
  }

  /** Adding a day that is not there and removing it again gives a strictly ascending list with the old elements. */
  lemma ToggleOnOff(days: seq<int>, day: int)
    requires Canonical(days) && day !in days
    ensures var rr := DayToggle(DayToggle(days, day), day);
      Canonical(rr) && multiset(rr) == multiset(days)
  {
    var r := DayToggle(days, day);
    var rr := DayToggle(r, day);
    assert day in multiset(r);
    assert rr == RemoveAll(r, day);
    ToggleCanonical(days, day);
    RemoveAllCanonical(r, day);
    forall y ensures multiset(rr)[y] == multiset(days)[y] {
      if y == day {
        assert day !in multiset(days);
      }
    }
    assert multiset(rr) == multiset(days);
  }

  // ---------------------------------------------------------------------
  // Work-day labels

  /** `DAYS_OF_WEEK` of the form: each weekday value with its short label. */
  const DayLabels: seq<(int, string)> :=
    [(0, "Dom"), (1, "Seg"), (2, "Ter"), (3, "Qua"), (4, "Qui"), (5, "Sex"), (6, "Sáb")]

  /** `DAYS_OF_WEEK.find((day) => day.value === d)?.label`, from position `from` on. */
  function FindLabel(d: int, from: nat): (l: Option<string>)
    requires from <= |DayLabels|
    ensures l.Some? <==> exists i :: from <= i < |DayLabels| && DayLabels[i].0 == d
    ensures l.Some? ==> exists i :: from <= i < |DayLabels| && DayLabels[i] == (d, l.value)
    decreases |DayLabels| - from
  {
    if from == |DayLabels| then None
    else if DayLabels[from].0 == d then Some(DayLabels[from].1)
    else FindLabel(d, from + 1)
  }

  /** The label of weekday `d`; the values 0 to 6 are exactly the ones that have one. */
  function Label(d: int): (l: Option<string>)
    ensures l.Some? <==> 0 <= d < 7
    ensures l.Some? ==> l.value == DayLabels[d].1
  {
    FindLabel(d, 0)
  }

  /** The labels of the days that have one, in the order of the days. */
  function WorkDayLabels(days: seq<int>): (r: seq<string>)
    ensures |r| <= |days|
    ensures (forall i :: 0 <= i < |days| ==> 0 <= days[i] < 7) ==>
      |r| == |days| && forall i :: 0 <= i < |days| ==> r[i] == DayLabels[days[i]].1
  {
    if days == [] then []
    else
      var rest := WorkDayLabels(days[1..]);
      match Label(days[0])
      case Some(l) => [l] + rest
      case None => rest
  }

  /** The days that have a label, 0 to 6, in input order. */
  function Labelled(days: seq<int>): (r: seq<int>)
    ensures |r| <= |days|
    ensures forall i :: 0 <= i < |r| ==> 0 <= r[i] < 7
    ensures forall d :: d in r <==> d in days && 0 <= d < 7
  {
    if days == [] then []
    else if 0 <= days[0] < 7 then [days[0]] + Labelled(days[1..])
    else Labelled(days[1..])
  }

  /** A single day gives its label when it has one and nothing otherwise. */
  lemma WorkDayLabelsOne(d: int)
    ensures WorkDayLabels([d]) == if 0 <= d < 7 then [DayLabels[d].1] else []
  {
    assert [d][1..] == [];
  }

  /** Labelling goes day by day: the labels of a concatenation are the labels of its parts, in order. */
  lemma {:induction false} WorkDayLabelsAppend(a: seq<int>, b: seq<int>)
    ensures WorkDayLabels(a + b) == WorkDayLabels(a) + WorkDayLabels(b)
  {
    if a == [] {
      assert a + b == b;
    } else {
      assert (a + b)[0] == a[0] && (a + b)[1..] == a[1..] + b;
      WorkDayLabelsAppend(a[1..], b);
    }
  }

  /** The unlabelled days are dropped and the others kept in order: the labels are those of the labelled days, one each. */
  lemma {:induction false} WorkDayLabelsOfLabelled(days: seq<int>)
    ensures WorkDayLabels(days) == WorkDayLabels(Labelled(days))
    ensures |WorkDayLabels(days)| == |Labelled(days)|
    ensures forall i :: 0 <= i < |Labelled(days)| ==> WorkDayLabels(days)[i] == DayLabels[Labelled(days)[i]].1
  {
    if days != [] {
      WorkDayLabelsOfLabelled(days[1..]);
      var rest := Labelled(days[1..]);
      if 0 <= days[0] < 7 {
        assert Labelled(days) == [days[0]] + rest;
        WorkDayLabelsAppend([days[0]], rest);
        WorkDayLabelsOne(days[0]);
      }
    }
  }

  /** `formatWorkDays(days)`: the labels of the days 0 to 6, in input order, joined with ", "; other values are dropped. */
  function FormatWorkDays(days: seq<int>): string {
    Join(WorkDayLabels(days), ", ")
  }

  /** The weekday a label names, if any. */
  function ValueOf(name: string, from: nat): (d: Option<int>)
    requires from <= |DayLabels|
    decreases |DayLabels| - from
  {
    if from == |DayLabels| then None
    else if DayLabels[from].1 == name then Some(DayLabels[from].0)
    else ValueOf(name, from + 1)
  }

  /** Reads a list written by `formatWorkDays` back: split on ',', trim, and keep the parts that are labels. */
  function ParseWorkDays(s: string): seq<int> {
    Values(Split(s, ','))
  }

  function Values(parts: seq<string>): seq<int> {
    if parts == [] then []
    else
      var rest := Values(parts[1..]);
      match ValueOf(Trim(parts[0]), 0)
      case Some(d) => [d] + rest
      case None => rest
  }

  /** A space in front of every part. */
  function SpaceEach(parts: seq<string>): (r: seq<string>)
    ensures |r| == |parts|
    ensures forall i :: 0 <= i < |parts| ==> r[i] == " " + parts[i]
  {
    if parts == [] then [] else [" " + parts[0]] + SpaceEach(parts[1..])
  }

  /** With `sep` and a space before each later part: how ", " joins relate to "," joins. */
  function Spaced(parts: seq<string>): seq<string> {
    if parts == [] then [] else [parts[0]] + SpaceEach(parts[1..])
  }

  lemma SpacedAt(parts: seq<string>, i: int)
    requires 0 <= i < |parts|
    ensures |Spaced(parts)| == |parts|
    ensures Spaced(parts)[i] == if i == 0 then parts[0] else " " + parts[i]
  {
    if i > 0 {
      assert Spaced(parts)[i] == SpaceEach(parts[1..])[i - 1];
    }
  }

  lemma {:induction false} JoinSpaced(parts: seq<string>)
    ensures Join(parts, ", ") == Join(Spaced(parts), ",")
    ensures |Spaced(parts)| == |parts|
    decreases |parts|
  {
    if |parts| >= 2 {
      var tail := parts[1..];
      var sp := Spaced(parts);
      JoinSpaced(tail);
      JoinSpacedTail(tail);
      assert sp[1..] == SpaceEach(tail);
      var x := Join(Spaced(tail), ",");
      calc {
        Join(sp, ",");
        sp[0] + "," + Join(SpaceEach(tail), ",");
        parts[0] + "," + (" " + x);
        { assert "," + (" " + x) == ", " + x; }
        parts[0] + ", " + x;
        Join(parts, ", ");
      }
    }
  }

  /** Joining the parts each with a space in front: the space moves in front of the join. */
  lemma JoinSpacedTail(parts: seq<string>)
    requires parts != []
    ensures " " + Join(Spaced(parts), ",") == Join(SpaceEach(parts), ",")
  {
    if |parts| > 1 {
      var rest := SpaceEach(parts[1..]);
      assert Spaced(parts)[1..] == rest && SpaceEach(parts)[1..] == rest;
    }
  }

  lemma DayLabelFacts(d: int)
    requires 0 <= d < 7
    ensures ',' !in DayLabels[d].1 && DayLabels[d].1 != ""
    ensures !IsWhiteSpace(DayLabels[d].1[0]) && !IsWhiteSpace(DayLabels[d].1[|DayLabels[d].1| - 1])
    ensures ValueOf(DayLabels[d].1, 0) == Some(d)
  {
  }

  /** Reading back what `formatWorkDays` writes gives the days again, for days 0 to 6. */
  lemma ParseFormatWorkDays(days: seq<int>)
    requires forall i :: 0 <= i < |days| ==> 0 <= days[i] < 7
    ensures ParseWorkDays(FormatWorkDays(days)) == days
  {
    var labels := WorkDayLabels(days);
    if days == [] {
      assert FormatWorkDays(days) == "";
      assert Split("", ',') == [""];
      assert Trim("") == "";
      assert Values([""]) == [];
    } else {
      JoinSpaced(labels);
      var sp := Spaced(labels);
      forall i | 0 <= i < |sp| ensures ',' !in sp[i] {
        DayLabelFacts(days[i]);
      }
      SplitJoin(sp, ',');
      ValuesSpaced(days, labels);
    }
  }

  /** Reading back what `formatWorkDays` writes gives the labelled days, in order: only the values outside 0 to 6 are lost. */
  lemma ParseFormatAnyWorkDays(days: seq<int>)
    ensures ParseWorkDays(FormatWorkDays(days)) == Labelled(days)
  {
    WorkDayLabelsOfLabelled(days);
    ParseFormatWorkDays(Labelled(days));
  }

  /** Spacing and trimming cancel out, so each spaced label reads as its day. */
  lemma ValuesSpaced(days: seq<int>, labels: seq<string>)
    requires |days| == |labels| >= 1
    requires forall i :: 0 <= i < |days| ==> 0 <= days[i] < 7 && labels[i] == DayLabels[days[i]].1
    ensures Values(Spaced(labels)) == days
  {
    var sp := Spaced(labels);
    JoinSpaced(labels);
    forall i | 0 <= i < |sp| ensures ValueOf(Trim(sp[i]), 0) == Some(days[i]) {
      DayLabelFacts(days[i]);
      TrimUnpadded(labels[i]);
      SpacedAt(labels, i);
    }
    ValuesOfLabels(sp, days);
  }

  lemma {:induction false} ValuesOfLabels(parts: seq<string>, days: seq<int>)
    requires |parts| == |days|
    requires forall i :: 0 <= i < |parts| ==> ValueOf(Trim(parts[i]), 0) == Some(days[i])
    ensures Values(parts) == days
    decreases |parts|
  {
    if parts != [] {
      ValuesOfLabels(parts[1..], days[1..]);
    }
  }

  /** No work days format as the empty text. */
  lemma FormatNoWorkDays()
    ensures FormatWorkDays([]) == ""
  {
  }

  /** The default work days format as "Seg, Ter, Qua, Qui, Sex". */
  lemma FormatWeekdays(days: seq<int>)
    requires days == [1, 2, 3, 4, 5]
    ensures FormatWorkDays(days) == "Seg, Ter, Qua, Qui, Sex"
  {
    var labels := WorkDayLabels(days);
    assert labels == ["Seg", "Ter", "Qua", "Qui", "Sex"];
    JoinWeekdays(labels);
  }

  lemma JoinWeekdays(labels: seq<string>)
    requires labels == ["Seg", "Ter", "Qua", "Qui", "Sex"]
    ensures Join(labels, ", ") == "Seg, Ter, Qua, Qui, Sex"
  {
    JoinFromTue();
    assert labels[1..] == ["Ter", "Qua", "Qui", "Sex"];
    JoinLabels(labels, "Seg", "Ter, Qua, Qui, Sex");
    assert "Seg" + ", " + "Ter, Qua, Qui, Sex" == "Seg, Ter, Qua, Qui, Sex";
  }

  lemma JoinFromTue()
    ensures Join(["Ter", "Qua", "Qui", "Sex"], ", ") == "Ter, Qua, Qui, Sex"
  {
    JoinFromWed();
    var l := ["Ter", "Qua", "Qui", "Sex"];
    assert l[1..] == ["Qua", "Qui", "Sex"];
    JoinLabels(l, "Ter", "Qua, Qui, Sex");
    assert "Ter" + ", " + "Qua, Qui, Sex" == "Ter, Qua, Qui, Sex";
  }

  lemma JoinFromWed()
    ensures Join(["Qua", "Qui", "Sex"], ", ") == "Qua, Qui, Sex"
  {
    var l := ["Qua", "Qui", "Sex"];
    assert l[1..] == ["Qui", "Sex"] && l[1..][1..] == ["Sex"];
    JoinLabels(l[1..], "Qui", "Sex");
    assert "Qui" + ", " + "Sex" == "Qui, Sex";
    JoinLabels(l, "Qua", "Qui, Sex");
    assert "Qua" + ", " + "Qui, Sex" == "Qua, Qui, Sex";
  }

  lemma JoinLabels(labels: seq<string>, first: string, rest: string)
    requires |labels| >= 2 && labels[0] == first && Join(labels[1..], ", ") == rest
    ensures Join(labels, ", ") == first + ", " + rest
  {
  }

  /** A value with no label is dropped: [6, 7, 0] formats as "Sáb, Dom". */
  lemma FormatDropsUnknown(days: seq<int>)
    requires days == [6, 7, 0]
    ensures FormatWorkDays(days) == "Sáb, Dom"
  {
    assert Label(6) == Some("Sáb") && Label(7) == None && Label(0) == Some("Dom");
    assert days[1..][1..] == [0] && days[1..][1..][1..] == [];
    assert WorkDayLabels(days[1..][1..]) == ["Dom"];
    assert WorkDayLabels(days[1..]) == ["Dom"];
    assert WorkDayLabels(days) == ["Sáb", "Dom"];
    JoinLabels(["Sáb", "Dom"], "Sáb", "Dom");
  }

  // ---------------------------------------------------------------------
  // Employees and the form

  datatype Employee = Employee(
    id: string, name: string, role: string, phone: string, active: bool,
    workStartTime: string, workEndTime: string, workDays: seq<int>, companyId: string, createdAt: string)

  datatype FormData = FormData(
    name: string, role: string, phone: string, workStartTime: string, workEndTime: string, workDays: seq<int>)

  /** `initialFormData`: empty texts, 08:00 to 17:00, Monday to Friday. */
  const InitialFormData := FormData("", "", "", "08:00", "17:00", [1, 2, 3, 4, 5])

  /** The default work days are a valid set of work days. */
  lemma InitialWorkDaysCanonical()
    ensures Canonical(InitialFormData.workDays)
  {
  }

  /** The form `handleOpenEdit` fills in: the six editable fields of the employee. */
  function FormOf(e: Employee): FormData {
    FormData(e.name, e.role, e.phone, e.workStartTime, e.workEndTime, e.workDays)
  }

  /** The form depends on the six editable fields only: id, status, company and creation date never reach it. */
  lemma FormOfIgnoresOtherFields(e: Employee, id: string, active: bool, companyId: string, createdAt: string)
    ensures FormOf(e.(id := id, active := active, companyId := companyId, createdAt := createdAt)) == FormOf(e)
  {
  }

  /** An employee whose editable fields are those of the form it was edited from. */
  lemma FormOfEdited(e: Employee, f: FormData)
    ensures FormOf(e.(name := f.name, role := f.role, phone := f.phone, workStartTime := f.workStartTime,
      workEndTime := f.workEndTime, workDays := f.workDays)) == f
  {
  }

  /** `JSON.stringify(formData)`: the six fields, in declaration order. */
  function FormJson(f: FormData): Json {
    JObject([
      ("name", JString(f.name)), ("role", JString(f.role)), ("phone", JString(f.phone)),
      ("workStartTime", JString(f.workStartTime)), ("workEndTime", JString(f.workEndTime)),
      ("workDays", JArray(seq(|f.workDays|, i requires 0 <= i < |f.workDays| => JNumber(f.workDays[i]))))])
  }

  /** Reads a saved form back from its JSON. */
  function FormFromJson(j: Json): Option<FormData> {
    match (Member(j, "name"), Member(j, "role"), Member(j, "phone"), Member(j, "workStartTime"), Member(j, "workEndTime"), Member(j, "workDays"))
    case (Some(JString(n)), Some(JString(r)), Some(JString(p)), Some(JString(s)), Some(JString(e)), Some(JArray(ds))) =>
      if forall i :: 0 <= i < |ds| ==> ds[i].JNumber? then
        Some(FormData(n, r, p, s, e, seq(|ds|, i requires 0 <= i < |ds| && ds[i].JNumber? => ds[i].n)))
      else None
    case _ => None
  }

  /** The body sent for a form carries exactly that form: what the server reads back is what was filled in. */
  lemma FormJsonRoundTrip(f: FormData)
    ensures FormFromJson(FormJson(f)) == Some(f)
  {
    FormJsonMembers(f);
    var ds := FormJson(f).members[5].1.items;
    assert forall i :: 0 <= i < |ds| ==> ds[i].JNumber?;
    assert seq(|ds|, i requires 0 <= i < |ds| && ds[i].JNumber? => ds[i].n) == f.workDays;
  }

  /** Each field of the form is found under its own name in the JSON body. */
  lemma FormJsonMembers(f: FormData)
    ensures Member(FormJson(f), "name") == Some(JString(f.name))
    ensures Member(FormJson(f), "role") == Some(JString(f.role))
    ensures Member(FormJson(f), "phone") == Some(JString(f.phone))
    ensures Member(FormJson(f), "workStartTime") == Some(JString(f.workStartTime))
    ensures Member(FormJson(f), "workEndTime") == Some(JString(f.workEndTime))
    ensures Member(FormJson(f), "workDays") == Some(FormJson(f).members[5].1)
  {
    var ms := FormJson(f).members;
    assert forall a, b :: 0 <= a < b < |ms| ==> ms[a].0 != ms[b].0;
    LookupDistinct(ms, 0);
    LookupDistinct(ms, 1);
    LookupDistinct(ms, 2);
    LookupDistinct(ms, 3);
    LookupDistinct(ms, 4);
    LookupDistinct(ms, 5);
  }

  /** A table row: the employee's work days and hours, its status badge, and whether the deactivate action is shown. */
  datatype Row = Row(days: string, hours: string, status: string, offersDeactivate: bool)

  function RowOf(e: Employee): Row {
    Row(FormatWorkDays(e.workDays), e.workStartTime + " - " + e.workEndTime,
      if e.active then "Ativo" else "Inativo", e.active)
  }

  /** Deactivation is offered exactly for the rows whose badge reads "Ativo", the active employees. */
  lemma DeactivateOfferedIffActive(e: Employee)
    ensures RowOf(e).offersDeactivate <==> RowOf(e).status == "Ativo"
    ensures RowOf(e).offersDeactivate <==> e.active
  {
  }

  /** The body of a successful `GET /employees`; the list may be missing. */
  datatype EmployeesData = EmployeesData(employees: Option<seq<Employee>>)

  const LoadError := "Erro ao carregar funcionários"
  const UpdateFallback := "Falha ao atualizar funcionário"
  const CreateFallback := "Falha ao criar funcionário"
  const DeactivateError := "Erro ao desativar funcionário"

  /** The request `handleSubmit` sends: PUT `/employees/{id}` while editing, POST `/employees` otherwise, with the form as body. */
  function SaveRequest(editing: Option<Employee>, f: FormData, authorization: string): (r: Request)
    ensures r.body == Some(FormJson(f)) && r.authorization == Some(authorization)
    ensures editing.Some? <==> r.verb == PUT
    ensures editing.Some? ==> r.target == Api("/employees/" + editing.value.id)
    ensures editing.None? <==> r.verb == POST && r.target == Api("/employees")
  {
    match editing
    case Some(e) => Request(PUT, Api("/employees/" + e.id), Some(authorization), Some(FormJson(f)))
    case None => Request(POST, Api("/employees"), Some(authorization), Some(FormJson(f)))
  }

  /** The fallback message of a failed save: the update's while editing, the creation's otherwise. */
  function SaveFallback(editing: bool): string {
    if editing then UpdateFallback else CreateFallback
  }

  function ListRequest(authorization: string): Request {
    Request(GET, Api("/employees"), Some(authorization), None)
  }

  function DeactivateRequest(id: string, authorization: string): Request {
    Request(PATCH, Api("/employees/" + id + "/deactivate"), Some(authorization), None)
  }

  /** The text inputs of the form. */
  datatype Field = Name | Role | Phone | WorkStartTime | WorkEndTime

  /** An input's `onChange`: `{ ...prev, [field]: value }`. */
  function WithField(f: FormData, field: Field, value: string): (r: FormData)
    ensures r.workDays == f.workDays
  {
    match field
    case Name => f.(name := value)
    case Role => f.(role := value)
    case Phone => f.(phone := value)
    case WorkStartTime => f.(workStartTime := value)
    case WorkEndTime => f.(workEndTime := value)
  }

  /** Reading a field of the form. */
  function FieldValue(f: FormData, field: Field): string {
    match field
    case Name => f.name
    case Role => f.role
    case Phone => f.phone
    case WorkStartTime => f.workStartTime
    case WorkEndTime => f.workEndTime
  }

  /** Changing one input sets that field and leaves every other field as it was. */
  lemma WithFieldOnlyThat(f: FormData, field: Field, value: string, other: Field)
    ensures FieldValue(WithField(f, field, value), field) == value
    ensures other != field ==> FieldValue(WithField(f, field, value), other) == FieldValue(f, other)
  {
  }

  // ---------------------------------------------------------------------
  // The page

  class EmployeesPage {
    var employees: seq<Employee>
    var loading: bool
    var saving: bool
    var error: string
    var dialogOpen: bool
    var editingEmployee: Option<Employee>
    var formData: FormData
    const window: Browser

    constructor (window: Browser)
      ensures this.window == window
      ensures employees == [] && loading && !saving && error == "" && !dialogOpen
      ensures editingEmployee == None && formData == InitialFormData
    {
      this.window := window;
      employees := [];
      loading := true;
      saving := false;
      error := "";
      dialogOpen := false;
      editingEmployee := None;
      formData := InitialFormData;
    }

    /** The dialog's title: "Editar funcionário" while editing, "Novo funcionário" otherwise. */
    function DialogTitle(): (t: string)
      reads this
      ensures t == "Editar funcionário" <==> editingEmployee.Some?
    {
      if editingEmployee.Some? then "Editar funcionário" else "Novo funcionário"
    }

    /** What the page holds once `fetchEmployees` has had `reply`. */
    predicate LoadedFrom(reply: Fetched<EmployeesData>, prevEmployees: seq<Employee>, prevError: string)
      reads this
    {
      && !loading
      && if reply.HasStatus(401) then employees == prevEmployees && error == prevError
         else if reply.IsOk() && reply.body.Parsed? then
           employees == reply.body.data.employees.GetOr([]) && error == prevError
         else employees == prevEmployees && error == LoadError
    }

    /** The mount effect: without a token, replace the page by /signup; otherwise load the list. */
    method Mount(reply: Fetched<EmployeesData>)
      modifies this, window
      ensures !old(window.HasToken()) ==>
        window.history == old(window.history) + [Replace("/signup")] && window.requests == old(window.requests)
        && window.storage == old(window.storage) && employees == old(employees) && loading == old(loading)
        && error == old(error)
      ensures old(window.HasToken()) ==>
        window.requests == old(window.requests) + [ListRequest(old(window.Authorization()))]
        && LoadedFrom(reply, old(employees), old(error))
        && window.history == old(window.history) + (if reply.HasStatus(401) then [Push("/signup")] else [])
        && window.storage == if reply.HasStatus(401) then old(window.storage) - {TokenKey} else old(window.storage)
      ensures saving == old(saving) && dialogOpen == old(dialogOpen)
      ensures editingEmployee == old(editingEmployee) && formData == old(formData)
    {
      if !window.HasToken() {
        window.Navigate(Replace("/signup"));
        return;
      }
      FetchEmployees(reply);
    }

    /** `fetchEmployees`: a 401 drops the token and goes to /signup; otherwise the list, or an error. */
    method FetchEmployees(reply: Fetched<EmployeesData>)
      modifies this, window
      ensures window.requests == old(window.requests) + [ListRequest(old(window.Authorization()))]
      ensures LoadedFrom(reply, old(employees), old(error))
      ensures window.history == old(window.history) + (if reply.HasStatus(401) then [Push("/signup")] else [])
      ensures window.storage == if reply.HasStatus(401) then old(window.storage) - {TokenKey} else old(window.storage)
      ensures saving == old(saving) && dialogOpen == old(dialogOpen)
      ensures editingEmployee == old(editingEmployee) && formData == old(formData)
    {
      window.Send(ListRequest(window.Authorization()));
      Load(reply);
    }

    /** What `fetchEmployees` does with the outcome of its request. */
    method Load(reply: Fetched<EmployeesData>)
      modifies this, window
      ensures LoadedFrom(reply, old(employees), old(error))
      ensures window.history == old(window.history) + (if reply.HasStatus(401) then [Push("/signup")] else [])
      ensures window.storage == if reply.HasStatus(401) then old(window.storage) - {TokenKey} else old(window.storage)
      ensures window.requests == old(window.requests)
      ensures saving == old(saving) && dialogOpen == old(dialogOpen)
      ensures editingEmployee == old(editingEmployee) && formData == old(formData)
    {
      loading := true;
      if reply.HasStatus(401) {
        window.RemoveItem(TokenKey);
        window.Navigate(Push("/signup"));
      } else if reply.IsOk() && reply.body.Parsed? {
        employees := reply.body.data.employees.GetOr([]);
      } else {
        error := LoadError;
      }
      loading := false;
    }

    /** `handleOpenCreate`: a fresh form for a new employee. */
    method OpenCreate()
      modifies this
      ensures editingEmployee == None && formData == InitialFormData && error == "" && dialogOpen
      ensures employees == old(employees) && loading == old(loading) && saving == old(saving)
    {
      editingEmployee := None;
      formData := InitialFormData;
      error := "";
      dialogOpen := true;
    }

    /** `handleOpenEdit(employee)`: the form filled in from the employee. */
    method OpenEdit(e: Employee)
      modifies this
      ensures editingEmployee == Some(e) && formData == FormOf(e) && error == "" && dialogOpen
      ensures employees == old(employees) && loading == old(loading) && saving == old(saving)
    {
      editingEmployee := Some(e);
      formData := FormOf(e);
      error := "";
      dialogOpen := true;
    }

    /** A work-day checkbox: `handleDayToggle(day)`. */
    method ToggleDay(day: int)
      modifies this
      ensures formData == old(formData).(workDays := DayToggle(old(formData).workDays, day))
      ensures Canonical(old(formData).workDays) ==> Canonical(formData.workDays)
      ensures employees == old(employees) && editingEmployee == old(editingEmployee) && error == old(error)
      ensures dialogOpen == old(dialogOpen) && loading == old(loading) && saving == old(saving)
    {
      if Canonical(formData.workDays) {
        ToggleCanonical(formData.workDays, day);
      }
      formData := formData.(workDays := DayToggle(formData.workDays, day));
    }

    /** A text input's `onChange`. */
    method ChangeField(field: Field, value: string)
      modifies this
      ensures formData == WithField(old(formData), field, value)
      ensures employees == old(employees) && editingEmployee == old(editingEmployee) && error == old(error)
      ensures dialogOpen == old(dialogOpen) && loading == old(loading) && saving == old(saving)
    {
      formData := WithField(formData, field, value);
    }

    /** The dialog's `onOpenChange` and its cancel button. */
    method SetDialogOpen(open: bool)
      modifies this
      ensures dialogOpen == open
      ensures employees == old(employees) && editingEmployee == old(editingEmployee) && error == old(error)
      ensures formData == old(formData) && loading == old(loading) && saving == old(saving)
    {
      dialogOpen := open;
    }

    /**
     * `handleSubmit`: save the form, with `reply` the outcome of the save and
     * `refetch` that of the list reload a successful save starts.
     */
    method Submit(reply: Fetched<ErrorBody>, refetch: Fetched<EmployeesData>)
      modifies this, window
      ensures !saving && editingEmployee == old(editingEmployee) && formData == old(formData)
      ensures !reply.IsOk() ==>
        window.requests == old(window.requests) + [SaveRequest(old(editingEmployee), old(formData), old(window.Authorization()))]
        && error == FailureMessage(reply, SaveFallback(old(editingEmployee).Some?)) && dialogOpen == old(dialogOpen)
        && employees == old(employees) && loading == old(loading)
        && window.history == old(window.history) && window.storage == old(window.storage)
      ensures reply.IsOk() ==>
        window.requests == old(window.requests)
          + [SaveRequest(old(editingEmployee), old(formData), old(window.Authorization())), ListRequest(old(window.Authorization()))]
        && !dialogOpen && LoadedFrom(refetch, old(employees), "")
        && window.history == old(window.history) + (if refetch.HasStatus(401) then [Push("/signup")] else [])
        && window.storage == if refetch.HasStatus(401) then old(window.storage) - {TokenKey} else old(window.storage)
    {
      window.Send(SaveRequest(editingEmployee, formData, window.Authorization()));
      Saved(reply, refetch);
    }

    /** What `handleSubmit` does once its request is sent. */
    method Saved(reply: Fetched<ErrorBody>, refetch: Fetched<EmployeesData>)
      modifies this, window
      ensures !saving && editingEmployee == old(editingEmployee) && formData == old(formData)
      ensures !reply.IsOk() ==>
        window.requests == old(window.requests)
        && error == FailureMessage(reply, SaveFallback(old(editingEmployee).Some?)) && dialogOpen == old(dialogOpen)
        && employees == old(employees) && loading == old(loading)
        && window.history == old(window.history) && window.storage == old(window.storage)
      ensures reply.IsOk() ==>
        window.requests == old(window.requests) + [ListRequest(old(window.Authorization()))]
        && !dialogOpen && LoadedFrom(refetch, old(employees), "")
        && window.history == old(window.history) + (if refetch.HasStatus(401) then [Push("/signup")] else [])
        && window.storage == if refetch.HasStatus(401) then old(window.storage) - {TokenKey} else old(window.storage)
    {
      error := "";
      saving := true;
      if reply.IsOk() {
        dialogOpen := false;
        FetchEmployees(refetch);
      } else {
        error := FailureMessage(reply, SaveFallback(editingEmployee.Some?));
      }
      saving := false;
    }

    /**
     * `handleDeactivate(id)`: nothing unless the user confirms; then PATCH
     * `/employees/{id}/deactivate` and, when that succeeds, reload the list.
     */
    method Deactivate(id: string, confirmed: bool, reply: Fetched<()>, refetch: Fetched<EmployeesData>)
      modifies this, window
      ensures !confirmed ==>
        window.requests == old(window.requests) && window.history == old(window.history)
        && window.storage == old(window.storage) && employees == old(employees) && error == old(error)
        && loading == old(loading)
      ensures confirmed && !reply.IsOk() ==>
        window.requests == old(window.requests) + [DeactivateRequest(id, old(window.Authorization()))]
        && error == DeactivateError && employees == old(employees) && loading == old(loading)
        && window.history == old(window.history) && window.storage == old(window.storage)
      ensures confirmed && reply.IsOk() ==>
        window.requests == old(window.requests) + [DeactivateRequest(id, old(window.Authorization())), ListRequest(old(window.Authorization()))]
        && LoadedFrom(refetch, old(employees), old(error))
        && window.history == old(window.history) + (if refetch.HasStatus(401) then [Push("/signup")] else [])
        && window.storage == if refetch.HasStatus(401) then old(window.storage) - {TokenKey} else old(window.storage)
      ensures saving == old(saving) && dialogOpen == old(dialogOpen)
      ensures editingEmployee == old(editingEmployee) && formData == old(formData)
    {
      if !confirmed {
        return;
      }
      window.Send(DeactivateRequest(id, window.Authorization()));
      if reply.IsOk() {
        FetchEmployees(refetch);
      } else {
        error := DeactivateError;
      }
    }
  }
}
