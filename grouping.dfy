/** Grouping messages under date labels, as the channel and DM views do before rendering:
    one pass over the list that creates a group the first time a label is seen and pushes
    each message onto its label's group. The label of a timestamp (`formatDate`) is a
    parameter; the object's key order is the order in which labels first appear. */
module Grouping {
  import opened Domain
  import opened Seqs

  /** The labels of `ms` in order of first appearance. */
  function Days(ms: seq<Message>, dayOf: int -> string): seq<string>
  {
    if ms == [] then []
    else
      var earlier := Days(ms[..|ms| - 1], dayOf);
      var d := dayOf(ms[|ms| - 1].ts);
      if d in earlier then earlier else earlier + [d]
  }

  /** The messages labelled `day`, in their original order. */
  function OnDay(ms: seq<Message>, dayOf: int -> string, day: string): seq<Message>
  {
    Keep(ms, DayIs(dayOf, day))
  }

  function DayIs(dayOf: int -> string, day: string): Message -> bool
  {
    (m: Message) => dayOf(m.ts) == day
  }

  predicate Distinct(ds: seq<string>) {
    forall i, j :: 0 <= i < j < |ds| ==> ds[i] != ds[j]
  }

  /** Every label occurs once, and exactly the labels of the messages occur. */
  lemma {:induction false} DaysExact(ms: seq<Message>, dayOf: int -> string)
    ensures Distinct(Days(ms, dayOf))
    ensures forall d :: d in Days(ms, dayOf) <==> exists m :: m in ms && dayOf(m.ts) == d
  {
    if ms != [] {
      var init := ms[..|ms| - 1];
      DaysExact(init, dayOf);
      assert ms == init + [ms[|ms| - 1]];
      forall d ensures d in Days(ms, dayOf) <==> exists m :: m in ms && dayOf(m.ts) == d {
        if d in Days(ms, dayOf) && d != dayOf(ms[|ms| - 1].ts) {
          var m :| m in init && dayOf(m.ts) == d;
          assert m in ms;
        }
        if exists m :: m in ms && dayOf(m.ts) == d {
          var m :| m in ms && dayOf(m.ts) == d;
          if m != ms[|ms| - 1] {
            assert m in init;
          }
        }
      }
    }
  }

  /** A label no message carries has an empty group. */
  lemma NoGroupWithoutDay(ms: seq<Message>, dayOf: int -> string, day: string)
    requires day !in Days(ms, dayOf)
    ensures OnDay(ms, dayOf, day) == []
  {
    DaysExact(ms, dayOf);
    var g := OnDay(ms, dayOf, day);
    forall x ensures multiset(g)[x] == 0 {
      KeepCount(ms, DayIs(dayOf, day), x);
      if dayOf(x.ts) == day {
        assert x !in ms;
      }
    }
    assert multiset(g) == multiset{};
  }

  /** Each message sits in the group of its own label, with its full multiplicity, and in no
      other group: the groups partition the list. */
  lemma EachMessageInOneGroup(ms: seq<Message>, dayOf: int -> string, m: Message, day: string)
    ensures multiset(OnDay(ms, dayOf, day))[m] == if dayOf(m.ts) == day then multiset(ms)[m] else 0
  {
    KeepCount(ms, DayIs(dayOf, day), m);
  }

  /** One more message adds its label to the labels when the label is new. */
  lemma DaysSnoc(ms: seq<Message>, m: Message, dayOf: int -> string)
    ensures Days(ms + [m], dayOf)
            == if dayOf(m.ts) in Days(ms, dayOf) then Days(ms, dayOf) else Days(ms, dayOf) + [dayOf(m.ts)]
  {
    assert (ms + [m])[..|ms|] == ms;
  }

  /** One more message joins the end of its own label's group and of no other. */
  lemma OnDaySnoc(ms: seq<Message>, m: Message, dayOf: int -> string, d: string)
    ensures OnDay(ms + [m], dayOf, d) == OnDay(ms, dayOf, d) + (if dayOf(m.ts) == d then [m] else [])
  {
    KeepConcat(ms, [m], DayIs(dayOf, d));
  }

  /** `days` and `groups` describe the grouping of `ms`: the labels in order of first
      appearance, one group per label, each holding that label's messages in order. */
  ghost predicate Grouped(ms: seq<Message>, dayOf: int -> string, days: seq<string>, groups: map<string, seq<Message>>)
  {
    && days == Days(ms, dayOf)
    && (forall d :: d in groups <==> d in days)
    && (forall d :: d in groups ==> groups[d] == OnDay(ms, dayOf, d))
  }

  /** Pushing one more message onto its label's group, creating the group first when the
      label is new, keeps the description exact. */
  lemma GroupStep(ms: seq<Message>, m: Message, dayOf: int -> string,
                  days: seq<string>, groups: map<string, seq<Message>>,
                  days': seq<string>, groups': map<string, seq<Message>>)
    requires Grouped(ms, dayOf, days, groups)
    requires var key := dayOf(m.ts);
             && days' == (if key in groups then days else days + [key])
             && groups' == groups[key := (if key in groups then groups[key] else []) + [m]]
    ensures Grouped(ms + [m], dayOf, days', groups')
  {
    var key := dayOf(m.ts);
    DaysSnoc(ms, m, dayOf);
    if key !in groups {
      NoGroupWithoutDay(ms, dayOf, key);
    }
    forall d | d in groups'
      ensures groups'[d] == OnDay(ms + [m], dayOf, d)
    {
      OnDaySnoc(ms, m, dayOf, d);
    }
  }

  /** `groupMessagesByDate`: `days` lists the labels in key order and `groups` maps each
      label to its messages. */
  method GroupByDate(messages: seq<Message>, dayOf: int -> string)
    returns (days: seq<string>, groups: map<string, seq<Message>>)
    ensures days == Days(messages, dayOf)
    ensures forall d :: d in groups <==> d in days
    ensures forall d :: d in groups ==> groups[d] == OnDay(messages, dayOf, d)
  {
    days, groups := [], map[];
    var i := 0;
    while i < |messages|
      invariant 0 <= i <= |messages|
      invariant Grouped(messages[..i], dayOf, days, groups)
    {
      var m := messages[i];
      var key := dayOf(m.ts);
      var days', groups' := days, groups;
      if key !in groups' {
        groups' := groups'[key := []];
        days' := days' + [key];
      }
      groups' := groups'[key := groups'[key] + [m]];
      GroupStep(messages[..i], m, dayOf, days, groups, days', groups');
      assert messages[..i + 1] == messages[..i] + [m];
      days, groups := days', groups';
      i := i + 1;
    }
    assert messages[..i] == messages;
  }
}
