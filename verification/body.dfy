/**
 * The body abstraction shared by every container node: an ordered list of
 * tagged children, and the two extractions the accessors are built from.
 *
 * An extraction is parameterised by a selector `f` that says, for one body
 * entry, whether it has the requested variant (`Some(payload)`) or not
 * (`None`); it plays the part of the `if let Enum::Variant(e) = element`
 * test of the two extraction macros.
 */
module Body {
  import opened Wrappers

  /**
   * The payloads of the entries `f` selects, in body order: the list the
   * extraction loops build by pushing one payload per selected entry.
   * Defined from the back, the way the loop extends it.
   */
  function Project<B, T>(body: seq<B>, f: B -> Option<T>): (r: seq<T>)
    ensures |r| <= |body|
  {
    if body == [] then []
    else
      var init := Project(body[..|body| - 1], f);
      match f(body[|body| - 1])
      case Some(x) => init + [x]
      case None => init
  }

  /** The number of entries `f` selects, counted from the front. */
  function Count<B, T>(body: seq<B>, f: B -> Option<T>): (n: nat)
    ensures n <= |body|
  {
    if body == [] then 0
    else (if f(body[0]).Some? then 1 else 0) + Count(body[1..], f)
  }

  /** The number of entries satisfying `p`, counted from the front. */
  function CountWhere<B>(body: seq<B>, p: B -> bool): (n: nat)
    ensures n <= |body|
  {
    if body == [] then 0
    else (if p(body[0]) then 1 else 0) + CountWhere(body[1..], p)
  }

  /**
   * The payload of the one entry `f` selects; nothing when no entry or more
   * than one entry is selected.
   */
  function Singleton<B, T>(body: seq<B>, f: B -> Option<T>): Option<T>
  {
    var found := Project(body, f);
    if |found| == 1 then Some(found[0]) else None
  }

  /** Multi extraction: collect every selected payload in body order. */
  method ElementsFromBody<B, T>(body: seq<B>, f: B -> Option<T>) returns (elements: seq<T>)
    ensures elements == Project(body, f)
  {
    elements := [];
    for i := 0 to |body|
      invariant elements == Project(body[..i], f)
    {
      assert body[..i + 1][..i] == body[..i];
      match f(body[i]) {
        case Some(e) => elements := elements + [e];
        case None =>
      }
    }
    assert body[..|body|] == body;
  }

  /**
   * Singleton extraction: collect every selected payload, pop the last one,
   * and keep it only if nothing is left behind.
   */
  method ElementFromBody<B, T>(body: seq<B>, f: B -> Option<T>) returns (element: Option<T>)
    ensures element == Singleton(body, f)
  {
    var elements := ElementsFromBody(body, f);
    element := None;
    if |elements| > 0 {
      element := Some(elements[|elements| - 1]);
      elements := elements[..|elements| - 1];
    }
    if |elements| != 0 {
      element := None;
    }
  }

  // ---------------------------------------------------------------------
  // Counting
  // ---------------------------------------------------------------------

  lemma {:induction false} CountAppend<B, T>(a: seq<B>, b: seq<B>, f: B -> Option<T>)
    ensures Count(a + b, f) == Count(a, f) + Count(b, f)
  {
    if a == [] {
      assert a + b == b;
    } else {
      assert (a + b)[1..] == a[1..] + b;
      CountAppend(a[1..], b, f);
    }
  }

  /** Two distinct selected entries make the count at least two. */
  lemma CountTwo<B, T>(body: seq<B>, f: B -> Option<T>, i: nat, j: nat)
    requires i < j < |body|
    ensures f(body[i]).Some? && f(body[j]).Some? ==> Count(body, f) >= 2
  {
    assert body == body[..i] + body[i..j] + body[j..];
    CountAppend(body[..i] + body[i..j], body[j..], f);
    CountAppend(body[..i], body[i..j], f);
    assert body[i..j][0] == body[i];
    assert body[j..][0] == body[j];
  }

  /** When every entry is selected by exactly one of `f` and `g`, their counts partition the body. */
  lemma {:induction false} CountComplement<B, T, U>(body: seq<B>, f: B -> Option<T>, g: B -> Option<U>)
    requires forall i :: 0 <= i < |body| ==> f(body[i]).Some? != g(body[i]).Some?
    ensures Count(body, f) + Count(body, g) == |body|
  {
    if body != [] {
      assert forall i :: 0 <= i < |body[1..]| ==> body[1..][i] == body[i + 1];
      CountComplement(body[1..], f, g);
    }
  }

  /** When no entry is selected by both `f` and `g`, their counts together fit in the body. */
  lemma {:induction false} CountDisjoint<B, T, U>(body: seq<B>, f: B -> Option<T>, g: B -> Option<U>)
    requires forall i :: 0 <= i < |body| ==> !(f(body[i]).Some? && g(body[i]).Some?)
    ensures Count(body, f) + Count(body, g) <= |body|
  {
    if body != [] {
      assert forall i :: 0 <= i < |body[1..]| ==> body[1..][i] == body[i + 1];
      CountDisjoint(body[1..], f, g);
    }
  }

  /** Counting the entries `f` selects is counting the entries satisfying a predicate that agrees with `f`. */
  lemma {:induction false} CountAsCountWhere<B, T>(body: seq<B>, f: B -> Option<T>, p: B -> bool)
    requires forall i :: 0 <= i < |body| ==> (f(body[i]).Some? <==> p(body[i]))
    ensures Count(body, f) == CountWhere(body, p)
  {
    if body != [] {
      assert forall i :: 0 <= i < |body[1..]| ==> body[1..][i] == body[i + 1];
      CountAsCountWhere(body[1..], f, p);
    }
  }

  // ---------------------------------------------------------------------
  // Multi extraction
  // ---------------------------------------------------------------------

  lemma ProjectSingle<B, T>(x: B, f: B -> Option<T>)
    ensures Project([x], f) == if f(x).Some? then [f(x).value] else []
  {
    assert [x][..0] == [];
  }

  /** One more entry extends the extraction by that entry's payload, if it is selected. */
  lemma ProjectStep<B, T>(body: seq<B>, f: B -> Option<T>, i: nat)
    requires i < |body|
    ensures Project(body[..i + 1], f)
            == Project(body[..i], f) + (if f(body[i]).Some? then [f(body[i]).value] else [])
  {
    assert body[..i + 1][..i] == body[..i];
  }

  /** Extraction distributes over concatenation of bodies. */
  lemma {:induction false} ProjectAppend<B, T>(a: seq<B>, b: seq<B>, f: B -> Option<T>)
    ensures Project(a + b, f) == Project(a, f) + Project(b, f)
    decreases |b|
  {
    if b == [] {
      assert a + b == a;
    } else {
      var b' := b[..|b| - 1];
      assert (a + b)[..|a + b| - 1] == a + b';
      assert (a + b)[|a + b| - 1] == b[|b| - 1];
      ProjectAppend(a, b', f);
    }
  }

  /** The extracted list has one payload per selected entry. */
  lemma {:induction false} ProjectLength<B, T>(body: seq<B>, f: B -> Option<T>)
    ensures |Project(body, f)| == Count(body, f)
    decreases |body|
  {
    if body != [] {
      var init := body[..|body| - 1];
      ProjectLength(init, f);
      assert body == init + [body[|body| - 1]];
      CountAppend(init, [body[|body| - 1]], f);
      assert [body[|body| - 1]][1..] == [];
    }
  }

  /**
   * Order preservation, entry to payload: the payload of a selected entry
   * stands at the position given by the number of selected entries before it.
   */
  lemma ProjectAt<B, T>(body: seq<B>, f: B -> Option<T>, i: nat)
    requires i < |body| && f(body[i]).Some?
    ensures Count(body[..i], f) < |Project(body, f)|
    ensures Project(body, f)[Count(body[..i], f)] == f(body[i]).value
  {
    assert body == body[..i] + [body[i]] + body[i + 1..];
    ProjectAppend(body[..i] + [body[i]], body[i + 1..], f);
    ProjectAppend(body[..i], [body[i]], f);
    ProjectLength(body[..i], f);
    ProjectSingle(body[i], f);
  }

  /**
   * Order preservation, payload to entry: every payload is that of a
   * selected entry, and the one at position k is the k-th selected entry's.
   */
  lemma {:induction false} ProjectFrom<B, T>(body: seq<B>, f: B -> Option<T>, k: nat)
    requires k < |Project(body, f)|
    ensures exists i :: 0 <= i < |body| && f(body[i]).Some? && Count(body[..i], f) == k
                        && Project(body, f)[k] == f(body[i]).value
    decreases |body|
  {
    var last := |body| - 1;
    var init := body[..last];
    assert body == init + [body[last]];
    ProjectAppend(init, [body[last]], f);
    ProjectSingle(body[last], f);
    ProjectLength(init, f);
    if k < |Project(init, f)| {
      ProjectFrom(init, f, k);
      var i :| 0 <= i < |init| && f(init[i]).Some? && Count(init[..i], f) == k
                && Project(init, f)[k] == f(init[i]).value;
      assert init[..i] == body[..i];
      assert 0 <= i < |body| && f(body[i]).Some? && Count(body[..i], f) == k
             && Project(body, f)[k] == f(body[i]).value;
    } else {
      assert 0 <= last < |body| && f(body[last]).Some? && Count(body[..last], f) == k
             && Project(body, f)[k] == f(body[last]).value;
    }
  }

  /** Two selectors that agree on every entry extract the same list. */
  lemma {:induction false} ProjectCongruent<B, T>(body: seq<B>, f: B -> Option<T>, g: B -> Option<T>)
    requires forall i :: 0 <= i < |body| ==> f(body[i]) == g(body[i])
    ensures Project(body, f) == Project(body, g)
    decreases |body|
  {
    if body != [] {
      ProjectCongruent(body[..|body| - 1], f, g);
    }
  }

  /** Nothing selected, nothing extracted. */
  lemma {:induction false} ProjectNone<B, T>(body: seq<B>, f: B -> Option<T>)
    requires forall i :: 0 <= i < |body| ==> f(body[i]).None?
    ensures Project(body, f) == []
    decreases |body|
  {
    if body != [] {
      ProjectNone(body[..|body| - 1], f);
    }
  }

  // ---------------------------------------------------------------------
  // Singleton extraction
  // ---------------------------------------------------------------------

  /** Singleton extraction finds something exactly when one entry is selected. */
  lemma SingletonIffOne<B, T>(body: seq<B>, f: B -> Option<T>)
    ensures Singleton(body, f).Some? <==> Count(body, f) == 1
  {
    ProjectLength(body, f);
  }

  /** One selected entry: its payload is returned. */
  lemma SingletonExactlyOne<B, T>(body: seq<B>, f: B -> Option<T>, i: nat)
    requires i < |body| && f(body[i]).Some?
    requires forall j :: 0 <= j < |body| && j != i ==> f(body[j]).None?
    ensures Singleton(body, f) == f(body[i])
  {
    assert body == body[..i] + [body[i]] + body[i + 1..];
    ProjectAppend(body[..i] + [body[i]], body[i + 1..], f);
    ProjectAppend(body[..i], [body[i]], f);
    ProjectNone(body[..i], f);
    ProjectNone(body[i + 1..], f);
    ProjectSingle(body[i], f);
  }

  /** No selected entry: nothing is returned. */
  lemma SingletonAbsent<B, T>(body: seq<B>, f: B -> Option<T>)
    requires forall j :: 0 <= j < |body| ==> f(body[j]).None?
    ensures Singleton(body, f) == None
  {
    ProjectNone(body, f);
  }

  /** Two selected entries: nothing is returned, as if there were none. */
  lemma SingletonAmbiguous<B, T>(body: seq<B>, f: B -> Option<T>, i: nat, j: nat)
    requires i < j < |body| && f(body[i]).Some? && f(body[j]).Some?
    ensures Singleton(body, f) == None
  {
    CountTwo(body, f, i, j);
    ProjectLength(body, f);
  }

  /** Whatever singleton extraction returns is the payload of the one selected entry. */
  lemma SingletonFound<B, T>(body: seq<B>, f: B -> Option<T>)
    requires Singleton(body, f).Some?
    ensures exists i :: 0 <= i < |body| && f(body[i]) == Singleton(body, f)
                        && forall j :: 0 <= j < |body| && j != i ==> f(body[j]).None?
  {
    ProjectFrom(body, f, 0);
    var i :| 0 <= i < |body| && f(body[i]).Some? && Count(body[..i], f) == 0
              && Project(body, f)[0] == f(body[i]).value;
    ProjectLength(body, f);
    forall j | 0 <= j < |body| && j != i
      ensures f(body[j]).None?
    {
      if i < j {
        CountTwo(body, f, i, j);
      } else {
        CountTwo(body, f, j, i);
      }
    }
  }
}
