/** What several modules share. */
module Prelude {

  datatype Option<+T> = None | Some(value: T)

  function Count(b: bool): nat {
    if b then 1 else 0
  }

  /** The lists one after the other; of strings, the text they spell. */
  function Join<T>(lists: seq<seq<T>>): seq<T> {
    if lists == [] then [] else Join(lists[..|lists| - 1]) + lists[|lists| - 1]
  }

  lemma JoinSnoc<T>(lists: seq<seq<T>>, list: seq<T>)
    ensures Join(lists + [list]) == Join(lists) + list
  {
    assert (lists + [list])[..|lists|] == lists;
  }

  lemma {:induction false} JoinAppend<T>(a: seq<seq<T>>, b: seq<seq<T>>)
    ensures Join(a + b) == Join(a) + Join(b)
  {
    if b == [] {
      assert a + b == a;
    } else {
      var init, last := b[..|b| - 1], b[|b| - 1];
      assert a + b == (a + init) + [last];
      JoinSnoc(a + init, last);
      JoinAppend(a, init);
    }
  }
}
