/** The normalised paper record every source client returns, and the
    optional-value wrapper used for absent JSON fields and cache misses. */
module Records {

  datatype Option<+T> = None | Some(value: T) {
    /** The value, or `default` when there is none (Python's `dict.get(key, default)`). */
    function GetOr(default: T): T {
      match this
      case Some(v) => v
      case None => default
    }
  }

  /** Applies f to every element in order; None as soon as one application
      gives None (a loop that stops at the first exception). */
  function MapAll<A, B>(f: A -> Option<B>, xs: seq<A>): (r: Option<seq<B>>)
    ensures r.Some? ==> |r.value| == |xs|
  {
    if xs == [] then Some([])
    else
      var rest := MapAll(f, xs[..|xs| - 1]);
      var last := f(xs[|xs| - 1]);
      if rest.Some? && last.Some? then Some(rest.value + [last.value]) else None
  }

  /** The map succeeds exactly when every application does. */
  lemma {:induction false} MapAllSucceeds<A, B>(f: A -> Option<B>, xs: seq<A>)
    ensures MapAll(f, xs).Some? <==> forall i :: 0 <= i < |xs| ==> f(xs[i]).Some?
  {
    if xs != [] {
      var n := |xs| - 1;
      var init := xs[..n];
      MapAllSucceeds(f, init);
      assert forall i :: 0 <= i < n ==> xs[i] == init[i];
      if MapAll(f, init).None? {
        var i :| 0 <= i < n && f(init[i]).None?;
        assert f(xs[i]).None?;
      }
    }
  }

  /** The i-th result is f of the i-th element. */
  lemma {:induction false} MapAllElements<A, B>(f: A -> Option<B>, xs: seq<A>)
    requires MapAll(f, xs).Some?
    ensures forall i :: 0 <= i < |xs| ==> f(xs[i]) == Some(MapAll(f, xs).value[i])
  {
    if xs != [] {
      var n := |xs| - 1;
      var init := xs[..n];
      var rest := MapAll(f, init);
      MapAllElements(f, init);
      var ys := rest.value + [f(xs[n]).value];
      assert MapAll(f, xs) == Some(ys);
      assert forall i :: 0 <= i < n ==> xs[i] == init[i] && ys[i] == rest.value[i];
    }
  }

  /** Mapping one more element of a prefix appends its result. */
  lemma MapAllExtend<A, B>(f: A -> Option<B>, xs: seq<A>, k: nat, ys: seq<B>, y: B)
    requires k < |xs| && MapAll(f, xs[..k]) == Some(ys) && f(xs[k]) == Some(y)
    ensures MapAll(f, xs[..k + 1]) == Some(ys + [y])
  {
    assert xs[..k + 1][..k] == xs[..k];
  }

  /** One entry of a paper's `authors` list: `{'name': ...}`. */
  datatype Author = Author(name: string)

  /** A normalised paper: the six fields every client writes, in both providers' shapes. */
  datatype Paper = Paper(
    title: string,
    abstractText: string,
    year: int,
    citationCount: int,
    authors: seq<Author>,
    url: string)
}
