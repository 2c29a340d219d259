/** Small vocabulary shared by the other modules. */
module Common {
  type byte = x: int | 0 <= x < 256

  datatype Option<+T> = None | Some(value: T)

  datatype Result<+T> = Ok(value: T) | Err(error: string)

  function Lookup<K, V>(m: map<K, V>, k: K, default: V): V {
    if k in m then m[k] else default
  }

  function Min(a: int, b: int): int {
    if a <= b then a else b
  }

  function Max(a: int, b: int): int {
    if a <= b then b else a
  }

  /** `xs` can be obtained from `ys` by deleting elements. */
  predicate IsSubsequence<T(==)>(xs: seq<T>, ys: seq<T>) {
    if xs == [] then true
    else if ys == [] then false
    else if xs[0] == ys[0] then IsSubsequence(xs[1..], ys[1..])
    else IsSubsequence(xs, ys[1..])
  }

  lemma {:induction false} SkipFirst<T>(xs: seq<T>, ys: seq<T>)
    requires ys != [] && IsSubsequence(xs, ys[1..])
    ensures IsSubsequence(xs, ys)
  {
    if xs != [] && xs[0] == ys[0] {
      DropFirst(xs, ys[1..]);
    }
  }

  lemma {:induction false} DropFirst<T>(xs: seq<T>, ys: seq<T>)
    requires xs != [] && IsSubsequence(xs, ys)
    ensures IsSubsequence(xs[1..], ys)
  {
    if xs[0] == ys[0] {
      SkipFirst(xs[1..], ys);
    } else {
      DropFirst(xs, ys[1..]);
      SkipFirst(xs[1..], ys);
    }
  }

  /** Positions in `ys`, in order, that spell `xs`. */
  ghost predicate Embeds<T>(at: seq<nat>, xs: seq<T>, ys: seq<T>) {
    && |at| == |xs|
    && (forall i :: 0 <= i < |at| ==> at[i] < |ys| && ys[at[i]] == xs[i])
    && (forall i, j :: 0 <= i < j < |at| ==> at[i] < at[j])
  }

  ghost function Shifted(at: seq<nat>, d: int): seq<nat>
    requires forall i :: 0 <= i < |at| ==> at[i] + d >= 0
  {
    seq(|at|, i requires 0 <= i < |at| => at[i] + d)
  }

  lemma {:induction false} SubsequenceMeans<T>(xs: seq<T>, ys: seq<T>)
    ensures IsSubsequence(xs, ys) <==> exists at :: Embeds(at, xs, ys)
  {
    if IsSubsequence(xs, ys) {
      var at := Positions(xs, ys);
    }
    if at :| Embeds(at, xs, ys) {
      EmbedsIsSubsequence(at, xs, ys);
    }
  }

  lemma {:induction false} Positions<T>(xs: seq<T>, ys: seq<T>) returns (at: seq<nat>)
    requires IsSubsequence(xs, ys)
    ensures Embeds(at, xs, ys)
    decreases ys
  {
    if xs == [] {
      at := [];
    } else if xs[0] == ys[0] {
      var rest := Positions(xs[1..], ys[1..]);
      at := [0] + Shifted(rest, 1);
    } else {
      var rest := Positions(xs, ys[1..]);
      at := Shifted(rest, 1);
    }
  }

  lemma {:induction false} EmbedsIsSubsequence<T>(at: seq<nat>, xs: seq<T>, ys: seq<T>)
    requires Embeds(at, xs, ys)
    ensures IsSubsequence(xs, ys)
    decreases ys
  {
    if xs != [] {
      assert forall i :: 0 < i < |at| ==> at[0] < at[i];
      if xs[0] == ys[0] {
        EmbedsIsSubsequence(Shifted(at[1..], -1), xs[1..], ys[1..]);
      } else {
        assert at[0] != 0;
        EmbedsIsSubsequence(Shifted(at, -1), xs, ys[1..]);
      }
    }
  }
}
