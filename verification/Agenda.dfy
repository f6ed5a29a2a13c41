/** The event queue: earliest first, ties in order of arrival, as the simulator's map of
    (time stamp, unique id) keys keeps it. */
module Agenda {
  import opened ChoTypes

  datatype Timed<+A> = Timed(time: real, act: A)

  ghost predicate Sorted<A>(q: seq<Timed<A>>) {
    forall i, j :: 0 <= i < j < |q| ==> q[i].time <= q[j].time
  }

  ghost predicate AllFrom<A>(q: seq<Timed<A>>, t: real) {
    forall i :: 0 <= i < |q| ==> t <= q[i].time
  }

  /** A new event goes behind every event that is not later. */
  function Insert<A>(q: seq<Timed<A>>, e: Timed<A>): (r: seq<Timed<A>>) {
    if q == [] || e.time < q[0].time then [e] + q else [q[0]] + Insert(q[1..], e)
  }

  /** An event earlier than all that wait goes in front. */
  lemma InsertFirst<A>(q: seq<Timed<A>>, e: Timed<A>)
    requires q != [] && e.time < q[0].time
    ensures Insert(q, e) == [e] + q
  {
  }

  function InsertAll<A>(q: seq<Timed<A>>, es: seq<Timed<A>>): seq<Timed<A>>
    decreases es
  {
    if es == [] then q else InsertAll(Insert(q, es[0]), es[1..])
  }

  lemma InFrontKeepsOrder<A>(q: seq<Timed<A>>, e: Timed<A>, t: real)
    requires Sorted(q) && AllFrom(q, e.time) && t <= e.time
    ensures Sorted([e] + q) && AllFrom([e] + q, t)
    ensures multiset([e] + q) == multiset(q) + multiset{e}
  {
  }

  lemma RestInOrder<A>(q: seq<Timed<A>>)
    requires Sorted(q) && q != []
    ensures Sorted(q[1..]) && AllFrom(q[1..], q[0].time) && AllFrom(q, q[0].time)
  {
  }

  lemma {:induction false} InsertKeepsOrder<A>(q: seq<Timed<A>>, e: Timed<A>, t: real)
    requires Sorted(q) && AllFrom(q, t) && t <= e.time
    ensures Sorted(Insert(q, e)) && AllFrom(Insert(q, e), t)
    ensures multiset(Insert(q, e)) == multiset(q) + multiset{e}
  {
    hide Sorted;
    if q == [] {
      InFrontKeepsOrder(q, e, t);
      assert [e] + q == [e];
    } else {
      RestInOrder(q);
      var rest := q[1..];
      assert q == [q[0]] + rest;
      if e.time < q[0].time {
        InFrontKeepsOrder(q, e, t);
      } else {
        InsertKeepsOrder(rest, e, q[0].time);
        InFrontKeepsOrder(Insert(rest, e), q[0], t);
        InFrontKeepsOrder(rest, q[0], t);
      }
    }
  }

  lemma {:induction false} InsertAllKeepsOrder<A>(q: seq<Timed<A>>, es: seq<Timed<A>>, t: real)
    requires Sorted(q) && AllFrom(q, t) && AllFrom(es, t)
    ensures Sorted(InsertAll(q, es)) && AllFrom(InsertAll(q, es), t)
    decreases es
  {
    if es != [] {
      InsertKeepsOrder(q, es[0], t);
      InsertAllKeepsOrder(Insert(q, es[0]), es[1..], t);
    }
  }

  /** The position at which a scan of an ordered queue puts the new event. */
  lemma {:induction false} InsertPosition<A>(q: seq<Timed<A>>, e: Timed<A>, k: nat)
    requires k <= |q|
    requires forall i :: 0 <= i < k ==> q[i].time <= e.time
    requires k < |q| ==> e.time < q[k].time
    ensures Insert(q, e) == q[..k] + [e] + q[k..]
  {
    if k > 0 {
      InsertPosition(q[1..], e, k - 1);
      assert q[1..][..k - 1] == q[1..k];
      assert q[1..][k - 1..] == q[k..];
      assert q[..k] == [q[0]] + q[1..k];
    }
  }

  /** Keep the events `f` maps to something, in their order. */
  function Sift<A, B>(q: seq<Timed<A>>, f: A -> Option<B>): seq<Timed<B>> {
    if q == [] then []
    else (match f(q[0].act) case None => [] case Some(b) => [Timed(q[0].time, b)]) + Sift(q[1..], f)
  }

  lemma {:induction false} SiftKeepsOrder<A, B>(q: seq<Timed<A>>, f: A -> Option<B>, t: real)
    requires Sorted(q) && AllFrom(q, t)
    ensures Sorted(Sift(q, f)) && AllFrom(Sift(q, f), t)
  {
    if q != [] {
      SiftKeepsOrder(q[1..], f, q[0].time);
    }
  }

  lemma SiftCons<A, B>(x: Timed<A>, s: seq<Timed<A>>, f: A -> Option<B>)
    ensures Sift([x] + s, f) == match f(x.act) case None => Sift(s, f) case Some(b) => [Timed(x.time, b)] + Sift(s, f)
  {
    assert ([x] + s)[1..] == s;
  }

  lemma InsertCons<A>(x: Timed<A>, s: seq<Timed<A>>, e: Timed<A>)
    requires x.time <= e.time
    ensures Insert([x] + s, e) == [x] + Insert(s, e)
  {
    assert ([x] + s)[1..] == s;
  }

  lemma InsertEarly<A>(q: seq<Timed<A>>, e: Timed<A>, t: real)
    requires AllFrom(q, t) && e.time < t
    ensures Insert(q, e) == [e] + q
  {
  }

  /** Selecting from a queue and inserting into it commute. */
  lemma {:induction false} SiftInsert<A, B>(q: seq<Timed<A>>, e: Timed<A>, f: A -> Option<B>)
    requires Sorted(q)
    ensures Sift(Insert(q, e), f) ==
            match f(e.act)
            case None => Sift(q, f)
            case Some(b) => Insert(Sift(q, f), Timed(e.time, b))
  {
    hide Sorted, Sift, AllFrom;
    if q == [] {
      SiftCons(e, q, f);
      SiftNone<A, B>(f);
    } else {
      RestInOrder(q);
      var rest := q[1..];
      assert q == [q[0]] + rest;
      if e.time < q[0].time {
        SiftCons(e, q, f);
        SiftKeepsOrder(q, f, q[0].time);
        if f(e.act).Some? {
          InsertEarly(Sift(q, f), Timed(e.time, f(e.act).value), q[0].time);
        }
      } else {
        SiftInsert(rest, e, f);
        SiftCons(q[0], Insert(rest, e), f);
        SiftCons(q[0], rest, f);
        if f(q[0].act).Some? && f(e.act).Some? {
          InsertCons(Timed(q[0].time, f(q[0].act).value), Sift(rest, f), Timed(e.time, f(e.act).value));
        }
      }
    }
  }

  lemma SiftNone<A, B>(f: A -> Option<B>)
    ensures Sift([], f) == []
  {
  }
}
