/** Vocabulary shared by every runtime of the repository: task identifiers, task
    states, and the few facts about sequences that the queues need. */
module Common {

  /** `TaskId` is handed out by an atomic counter, so identifiers are naturals. */
  type TaskId = nat

  datatype Option<+T> = None | Some(value: T)

  datatype TaskState = Runnable | Running | Waiting | Dead

  /** The part of a task record that the schedulers look at. */
  datatype Task = Task(id: TaskId, state: TaskState)

  /** The first `n` identifiers the counter hands out. */
  function FirstIds(n: nat): (ids: set<TaskId>)
    ensures forall i: TaskId :: i in ids <==> i < n
  {
    if n == 0 then {} else FirstIds(n - 1) + {n - 1}
  }

  /** `m` with the entries of all of `ids` set to `w`. */
  function Redirect<W>(m: map<TaskId, W>, ids: seq<TaskId>, w: W): map<TaskId, W> {
    map x | x in m.Keys :: if x in ids then w else m[x]
  }

  function Bit(b: bool): int { if b then 1 else 0 }

  ghost predicate NoDup<T>(s: seq<T>) {
    forall i, j :: 0 <= i < j < |s| ==> s[i] != s[j]
  }

  lemma HeadIsNew<T>(q: seq<T>)
    requires NoDup(q) && q != []
    ensures NoDup(q[1..]) && q[0] in q && q[0] !in q[1..]
    ensures forall x :: x in q && x != q[0] ==> x in q[1..]
  {
    forall x | x in q && x != q[0] ensures x in q[1..] {
      var i :| 0 <= i < |q| && q[i] == x;
      assert q[1..][i - 1] == x;
    }
  }

  /** After `p` removals at its front, the element at position `i` of `q` is `p` places
      further in `q'`. */
  predicate InLine<T(==)>(q: seq<T>, q': seq<T>, i: nat, p: nat) {
    p <= i < |q| && i - p < |q'| && q'[i - p] == q[i]
  }

  /** A first-in first-out step: the front is removed, or something joins at the back. */
  predicate Advances<T(==)>(q: seq<T>, q': seq<T>, removed: bool) {
    if removed then q != [] && q' == q[1..] else q <= q'
  }

  lemma InLineStep<T>(q: seq<T>, now: seq<T>, next: seq<T>, removed: bool, i: nat, p: nat)
    requires InLine(q, now, i, p) && Advances(now, next, removed)
    ensures !removed ==> InLine(q, next, i, p)
    ensures removed && p < i ==> InLine(q, next, i, p + 1)
  {
  }

  /** How often a predicate holds along a sequence. */
  ghost function Count<T>(s: seq<T>, p: T -> bool): (n: nat)
    ensures n <= |s|
  {
    if s == [] then 0 else Count(s[..|s| - 1], p) + if p(s[|s| - 1]) then 1 else 0
  }

  lemma {:induction false} CountUpdate<T>(s: seq<T>, p: T -> bool, i: nat, x: T)
    requires i < |s|
    ensures Count(s[i := x], p)
         == Count(s, p) - (if p(s[i]) then 1 else 0) + (if p(x) then 1 else 0)
  {
    var n := |s| - 1;
    if i == n {
      assert s[i := x][..n] == s[..n];
    } else {
      assert s[i := x][..n] == s[..n][i := x];
      CountUpdate(s[..n], p, i, x);
    }
  }

  lemma CountAppend<T>(s: seq<T>, p: T -> bool, x: T)
    ensures Count(s + [x], p) == Count(s, p) + if p(x) then 1 else 0
  {
    assert (s + [x])[..|s|] == s;
  }

  lemma {:induction false} CountAll<T>(s: seq<T>, p: T -> bool)
    ensures Count(s, p) == |s| <==> forall i :: 0 <= i < |s| ==> p(s[i])
  {
    if s != [] {
      CountAll(s[..|s| - 1], p);
      assert forall i :: 0 <= i < |s| - 1 ==> s[..|s| - 1][i] == s[i];
    }
  }

  lemma {:induction false} CountNone<T>(s: seq<T>, p: T -> bool)
    ensures Count(s, p) == 0 <==> forall i :: 0 <= i < |s| ==> !p(s[i])
  {
    if s != [] {
      CountNone(s[..|s| - 1], p);
      assert forall i :: 0 <= i < |s| - 1 ==> s[..|s| - 1][i] == s[i];
    }
  }

  /** If everything satisfying `p` also satisfies `q` and the counts agree, then
      conversely everything satisfying `q` satisfies `p`. */
  lemma {:induction false} CountSubset<T>(s: seq<T>, p: T -> bool, q: T -> bool)
    requires forall i :: 0 <= i < |s| && p(s[i]) ==> q(s[i])
    ensures Count(s, p) <= Count(s, q)
    ensures Count(s, p) == Count(s, q) ==> forall i :: 0 <= i < |s| && q(s[i]) ==> p(s[i])
  {
    if s != [] {
      var r := s[..|s| - 1];
      assert forall i :: 0 <= i < |r| ==> r[i] == s[i];
      CountSubset(r, p, q);
    }
  }
}
