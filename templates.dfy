/**
 * Rename templates such as `{date}_{seller}_{amount}`, already split into
 * literal text and `{key}` placeholders, and `str.format(**fields)` on
 * them, which raises KeyError when a placeholder names a missing key.
 */
module Templates {
  import opened Wrappers
  import opened Text

  datatype Token = Lit(text: string) | Slot(key: string)

  type Template = seq<Token>

  /** The keys the template's placeholders name. */
  function Slots(t: Template): (r: set<string>)
    ensures forall k :: 0 <= k < |t| && t[k].Slot? ==> t[k].key in r
  {
    if t == [] then {}
    else (if t[0].Slot? then {t[0].key} else {}) + Slots(t[1..])
  }

  /** `template.format(**f)`: None stands for the KeyError of a missing key. */
  function Render(t: Template, f: map<string, string>): (r: Option<string>)
    ensures r.Some? <==> Slots(t) <= f.Keys
  {
    if t == [] then Some([])
    else
      var rest := Render(t[1..], f);
      match t[0]
      case Lit(x) => if rest.Some? then Some(x + rest.value) else None
      case Slot(k) => if k in f && rest.Some? then Some(f[k] + rest.value) else None
  }

  /** A template of one literal renders to that literal. */
  lemma RenderLit(x: string, f: map<string, string>)
    ensures Render([Lit(x)], f) == Some(x)
  {
    assert [Lit(x)][1..] == [];
    assert x + [] == x;
  }

  /** A template of one placeholder renders to the value of its key, or raises. */
  lemma RenderSlot(k: string, f: map<string, string>)
    ensures Render([Slot(k)], f) == if k in f then Some(f[k]) else None
  {
    assert [Slot(k)][1..] == [];
    if k in f { assert f[k] + [] == f[k]; }
  }

  /**
   * Rendering a concatenation of templates concatenates their renderings,
   * and raises when either part does.
   */
  lemma {:induction false} RenderConcat(t1: Template, t2: Template, f: map<string, string>)
    ensures Render(t1 + t2, f) ==
      if Render(t1, f).Some? && Render(t2, f).Some? then Some(Render(t1, f).value + Render(t2, f).value) else None
  {
    if t1 == [] {
      assert t1 + t2 == t2;
      if Render(t2, f).Some? {
        assert Render(t1, f).value + Render(t2, f).value == Render(t2, f).value;
      }
    } else {
      assert (t1 + t2)[0] == t1[0];
      assert (t1 + t2)[1..] == t1[1..] + t2;
      RenderConcat(t1[1..], t2, f);
      if Render(t1, f).Some? && Render(t2, f).Some? {
        var head := if t1[0].Lit? then t1[0].text else f[t1[0].key];
        var a, b := Render(t1[1..], f).value, Render(t2, f).value;
        assert Render(t1, f).value == head + a;
        assert Render(t1[1..] + t2, f) == Some(a + b);
        assert Render(t1 + t2, f).value == head + (a + b);
        assert head + (a + b) == (head + a) + b;
      }
    }
  }

  /** Two placeholders joined by an underscore give the two values so joined. */
  lemma RenderPair(k1: string, k2: string, f: map<string, string>)
    requires k1 in f && k2 in f
    ensures Render([Slot(k1), Lit("_"), Slot(k2)], f) == Some(f[k1] + "_" + f[k2])
  {
    RenderSlot(k2, f);
    RenderLit("_", f);
    RenderConcat([Lit("_")], [Slot(k2)], f);
    RenderSlot(k1, f);
    RenderConcat([Slot(k1)], [Lit("_"), Slot(k2)], f);
    assert [Slot(k1), Lit("_"), Slot(k2)] == [Slot(k1)] + ([Lit("_")] + [Slot(k2)]);
    assert f[k1] + ("_" + f[k2]) == f[k1] + "_" + f[k2];
  }

  /** Three placeholders joined by underscores give the three values so joined. */
  lemma RenderTriple(k1: string, k2: string, k3: string, f: map<string, string>)
    requires k1 in f && k2 in f && k3 in f
    ensures Render([Slot(k1), Lit("_"), Slot(k2), Lit("_"), Slot(k3)], f) == Some(f[k1] + "_" + f[k2] + "_" + f[k3])
  {
    RenderPair(k2, k3, f);
    RenderLit("_", f);
    RenderConcat([Lit("_")], [Slot(k2), Lit("_"), Slot(k3)], f);
    RenderSlot(k1, f);
    RenderConcat([Slot(k1)], [Lit("_"), Slot(k2), Lit("_"), Slot(k3)], f);
    assert [Slot(k1), Lit("_"), Slot(k2), Lit("_"), Slot(k3)] == [Slot(k1)] + ([Lit("_")] + [Slot(k2), Lit("_"), Slot(k3)]);
    assert f[k1] + ("_" + (f[k2] + "_" + f[k3])) == f[k1] + "_" + f[k2] + "_" + f[k3];
  }

  /** No literal of the template holds a character of `cs`. */
  predicate LiteralsAvoid(t: Template, cs: set<char>) {
    forall k :: 0 <= k < |t| && t[k].Lit? ==> NoneOf(t[k].text, cs)
  }

  /** No value of the dictionary holds a character of `cs`. */
  predicate ValuesAvoid(f: map<string, string>, cs: set<char>) {
    forall key :: key in f ==> NoneOf(f[key], cs)
  }

  /** Substitution brings in no character that neither the literals nor the values had. */
  lemma {:induction false} RenderAvoids(t: Template, f: map<string, string>, cs: set<char>)
    requires LiteralsAvoid(t, cs) && ValuesAvoid(f, cs) && Render(t, f).Some?
    ensures NoneOf(Render(t, f).value, cs)
  {
    if t != [] {
      assert LiteralsAvoid(t[1..], cs) by {
        forall k | 0 <= k < |t[1..]| && t[1..][k].Lit? ensures NoneOf(t[1..][k].text, cs) {
          assert t[1..][k] == t[k + 1];
        }
      }
      RenderAvoids(t[1..], f, cs);
      var head := if t[0].Lit? then t[0].text else f[t[0].key];
      var rest := Render(t[1..], f).value;
      assert NoneOf(head, cs);
      assert Render(t, f).value == head + rest;
      assert forall m :: 0 <= m < |head + rest| ==>
        (head + rest)[m] == if m < |head| then head[m] else rest[m - |head|];
    }
  }
}
