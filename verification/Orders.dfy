/** Some order in which to visit a finite set. */
module Orders {

  ghost function SomeOf<T>(keys: set<T>): T
    requires keys != {}
  {
    var x :| x in keys; x
  }

  ghost function OrderOf<T>(keys: set<T>): seq<T> {
    if keys == {} then [] else [SomeOf(keys)] + OrderOf(keys - {SomeOf(keys)})
  }

  /** It visits every element once. */
  lemma {:induction false} OrderVisits<T>(keys: set<T>)
    ensures forall x :: x in OrderOf(keys) <==> x in keys
    ensures forall i, j :: 0 <= i < j < |OrderOf(keys)| ==> OrderOf(keys)[i] != OrderOf(keys)[j]
  {
    if keys != {} {
      OrderVisits(keys - {SomeOf(keys)});
    }
  }
}
