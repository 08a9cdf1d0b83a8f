/** Stacks of grid ids: the `Vec` stacks of the monophonic devices and the
    insertion-ordered `IndexSet` of the selectors, most recent last. */
module IdStacks {

  /** No id occurs twice. */
  predicate Distinct(stack: seq<nat>)
  {
    forall i, j :: 0 <= i < j < |stack| ==> stack[i] != stack[j]
  }

  /** `retain(|&x| x != id)`: `stack` with every occurrence of `id` taken
      out and the rest left in order. */
  function Without(stack: seq<nat>, id: nat): (r: seq<nat>)
    ensures |r| <= |stack|
  {
    if stack == [] then []
    else
      var last := stack[|stack| - 1];
      Without(stack[..|stack| - 1], id) + (if last == id then [] else [last])
  }

  /** `Without` keeps exactly the other ids. */
  lemma {:induction false} WithoutMembers(stack: seq<nat>, id: nat)
    ensures forall x :: x in Without(stack, id) <==> x in stack && x != id
  {
    if stack != [] {
      var rest := stack[..|stack| - 1];
      WithoutMembers(rest, id);
      assert stack == rest + [stack[|stack| - 1]];
    }
  }

  /** Taking out an id the stack does not hold changes nothing. */
  lemma {:induction false} WithoutAbsent(stack: seq<nat>, id: nat)
    requires id !in stack
    ensures Without(stack, id) == stack
  {
    if stack != [] {
      var rest := stack[..|stack| - 1];
      WithoutAbsent(rest, id);
      assert stack == rest + [stack[|stack| - 1]];
    }
  }

  /** Taking out an id on top of the stack takes out the same ids as taking
      it out of what is below it. */
  lemma WithoutTop(stack: seq<nat>, id: nat)
    requires |stack| > 0 && stack[|stack| - 1] == id
    ensures Without(stack, id) == Without(stack[..|stack| - 1], id)
  {
  }

  /** On a stack without duplicates, taking out the id at `i` closes the
      gap: the ids before and after it keep their order. */
  lemma {:induction false} WithoutAt(stack: seq<nat>, i: nat)
    requires Distinct(stack) && i < |stack|
    ensures Without(stack, stack[i]) == stack[..i] + stack[i + 1..]
  {
    var rest := stack[..|stack| - 1];
    var last := stack[|stack| - 1];
    assert stack == rest + [last];
    if i == |stack| - 1 {
      assert stack[i] !in rest by {
        forall k | 0 <= k < |rest| ensures rest[k] != stack[i] {
          assert rest[k] == stack[k];
        }
      }
      WithoutAbsent(rest, stack[i]);
      assert stack[i + 1..] == [];
    } else {
      assert rest[i] == stack[i];
      WithoutAt(rest, i);
      assert last != stack[i];
      assert rest[..i] == stack[..i];
      assert rest[i + 1..] + [last] == stack[i + 1..];
    }
  }

  /** Taking an id out keeps the other ids distinct. */
  lemma {:induction false} WithoutDistinct(stack: seq<nat>, id: nat)
    requires Distinct(stack)
    ensures Distinct(Without(stack, id))
  {
    if stack != [] {
      var rest := stack[..|stack| - 1];
      var last := stack[|stack| - 1];
      WithoutDistinct(rest, id);
      WithoutMembers(rest, id);
      assert last !in rest by {
        forall k | 0 <= k < |rest| ensures rest[k] != last {
          assert rest[k] == stack[k];
        }
      }
    }
  }

  /** `IndexSet::insert`: a new id goes on top; an id already held keeps
      its place. */
  function Insert(stack: seq<nat>, id: nat): (r: seq<nat>)
  {
    if id in stack then stack else stack + [id]
  }

  /** Inserting keeps the ids distinct, adds exactly `id`, and puts it on
      top exactly when it was not held before (or already was the top). */
  lemma InsertDistinct(stack: seq<nat>, id: nat)
    requires Distinct(stack)
    ensures Distinct(Insert(stack, id))
    ensures forall x :: x in Insert(stack, id) <==> x in stack || x == id
    ensures Insert(stack, id)[|Insert(stack, id)| - 1] == id <==> id !in stack || stack[|stack| - 1] == id
  {
    if id in stack && stack[|stack| - 1] != id {
      assert Insert(stack, id) == stack;
    }
  }
}
