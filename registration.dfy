/**
 * The noxfile's own `session` decorator factory: besides handing the function to nox, it
 * appends the session's name to the process-wide list of sessions run by default
 * (`nox.options.sessions`), which the file first sets to the empty list.
 */
module Registration {
  import opened Common

  /** One application of the decorator: the function's name and the decorator's arguments. */
  datatype Declaration = Declaration(fnName: string, isDefault: bool, explicitName: Option<string>)

  /** The name a declaration registers under: the `name` keyword if given, else the function's name. */
  function ResolvedName(d: Declaration): (n: string)
    ensures d.explicitName.Some? ==> n == d.explicitName.value
    ensures d.explicitName.None? ==> n == d.fnName
  {
    match d.explicitName
    case Some(n) => n
    case None => d.fnName
  }

  /** What one declaration adds to the default list. */
  function Entry(d: Declaration): seq<string>
  {
    if d.isDefault then [ResolvedName(d)] else []
  }

  /** The default list after a sequence of declarations, starting from the empty list. */
  function DefaultNames(decls: seq<Declaration>): (names: seq<string>)
    ensures |names| <= |decls|
  {
    if decls == [] then [] else DefaultNames(decls[..|decls| - 1]) + Entry(decls[|decls| - 1])
  }

  /** The default list of two declaration phases in a row is the first's followed by the second's. */
  lemma {:induction false} DefaultNamesAppend(a: seq<Declaration>, b: seq<Declaration>)
    ensures DefaultNames(a + b) == DefaultNames(a) + DefaultNames(b)
    decreases |b|
  {
    if b == [] {
      assert a + b == a;
    } else {
      var b' := b[..|b| - 1];
      assert (a + b)[..|a + b| - 1] == a + b';
      DefaultNamesAppend(a, b');
    }
  }

  /** A declaration leaves the default list as it is when it is not a default one. */
  lemma NonDefaultInvisible(a: seq<Declaration>, d: Declaration, b: seq<Declaration>)
    requires !d.isDefault
    ensures DefaultNames(a + [d] + b) == DefaultNames(a + b)
  {
    DefaultNamesAppend(a + [d], b);
    DefaultNamesAppend(a, b);
    assert (a + [d])[..|a + [d]| - 1] == a;
  }

  /** A name is on the default list exactly when some default declaration resolves to it. */
  lemma {:induction false} DefaultNamesMembership(decls: seq<Declaration>, name: string)
    ensures name in DefaultNames(decls) <==>
      exists i :: 0 <= i < |decls| && decls[i].isDefault && ResolvedName(decls[i]) == name
    decreases |decls|
  {
    if decls != [] {
      var init := decls[..|decls| - 1];
      DefaultNamesMembership(init, name);
      assert forall i :: 0 <= i < |init| ==> init[i] == decls[i];
      if name in DefaultNames(decls) && name !in DefaultNames(init) {
        assert decls[|decls| - 1].isDefault && ResolvedName(decls[|decls| - 1]) == name;
      }
    }
  }

  /**
   * Default sessions appear in declaration order: of two default declarations, the earlier
   * one's name stands at an earlier position of the list.
   */
  lemma DefaultNamesOrder(decls: seq<Declaration>, i: int, j: int)
    requires 0 <= i < j < |decls| && decls[i].isDefault && decls[j].isDefault
    ensures var names := DefaultNames(decls);
      exists p, q :: 0 <= p < q < |names| && names[p] == ResolvedName(decls[i]) && names[q] == ResolvedName(decls[j])
  {
    DefaultNamesAt(decls, i);
    DefaultNamesAt(decls, j);
    DefaultNamesAt(decls[..j], i);
    assert decls[..j][..i] == decls[..i];
    var p, q := |DefaultNames(decls[..i])|, |DefaultNames(decls[..j])|;
    assert DefaultNames(decls)[p] == ResolvedName(decls[i]);
    assert DefaultNames(decls)[q] == ResolvedName(decls[j]);
  }

  /** A default declaration's name stands right after the names of the declarations before it. */
  lemma DefaultNamesAt(decls: seq<Declaration>, k: int)
    requires 0 <= k < |decls| && decls[k].isDefault
    ensures |DefaultNames(decls[..k])| < |DefaultNames(decls)|
    ensures DefaultNames(decls)[|DefaultNames(decls[..k])|] == ResolvedName(decls[k])
  {
    var front, back := decls[..k] + [decls[k]], decls[k + 1..];
    assert decls == front + back;
    DefaultNamesAppend(front, back);
    DefaultNamesSnoc(decls[..k], decls[k]);
  }

  /** The decorators of the noxfile, in the order the file applies them. */
  function NoxfileDeclarations(): (ds: seq<Declaration>)
    ensures |ds| == 11
    ensures forall i, j :: 0 <= i < j < |ds| ==> ds[i].fnName != ds[j].fnName
    ensures forall i :: 0 <= i < |ds| ==> (!ds[i].isDefault <==> ds[i].fnName == "bench" || ds[i].fnName == "requirements")
    ensures forall i :: 0 <= i < |ds| ==> (ds[i].explicitName.Some? <==> ds[i].fnName == "docs_style")
  {
    [ Declaration("tests", true, None),
      Declaration("audit", true, None),
      Declaration("license_check", true, None),
      Declaration("build", true, None),
      Declaration("secrets", true, None),
      Declaration("style", true, None),
      Declaration("typing", true, None),
      Declaration("docs", true, None),
      Declaration("docs_style", true, Some("docs(style)")),
      Declaration("bench", false, None),
      Declaration("requirements", false, None) ]
  }

  /** The list of sessions nox runs by default. */
  class Registry {
    var defaults: seq<string>

    /** `nox.options.sessions = []`. */
    constructor ()
      ensures defaults == []
    {
      defaults := [];
    }

    /** Applying `session(default=isDefault, name=...)` to a function named `fnName`. */
    method Register(fnName: string, isDefault: bool, explicitName: Option<string>)
      modifies this
      ensures !isDefault ==> defaults == old(defaults)
      ensures isDefault ==> defaults == old(defaults) + [if explicitName.Some? then explicitName.value else fnName]
    {
      if isDefault {
        var name := match explicitName case Some(n) => n case None => fnName;
        defaults := defaults + [name];
      }
    }
  }

  /** Loading the noxfile: the registry starts empty and each decorator registers in turn. */
  method DeclareNoxfile() returns (r: Registry)
    ensures fresh(r)
    ensures r.defaults == DefaultNames(NoxfileDeclarations())
    ensures r.defaults == ["tests", "audit", "license_check", "build", "secrets", "style", "typing", "docs", "docs(style)"]
  {
    r := new Registry();
    r.Register("tests", true, None);
    r.Register("audit", true, None);
    r.Register("license_check", true, None);
    r.Register("build", true, None);
    r.Register("secrets", true, None);
    r.Register("style", true, None);
    r.Register("typing", true, None);
    r.Register("docs", true, None);
    r.Register("docs_style", true, Some("docs(style)"));
    r.Register("bench", false, None);
    r.Register("requirements", false, None);
    NoxfileDefaults();
  }

  /** One more declaration adds its entry at the end of the default list. */
  lemma DefaultNamesSnoc(decls: seq<Declaration>, d: Declaration)
    ensures DefaultNames(decls + [d]) == DefaultNames(decls) + Entry(d)
  {
  }

  /** The noxfile's default list: every session but `bench` and `requirements`, in file order. */
  lemma NoxfileDefaults()
    ensures DefaultNames(NoxfileDeclarations()) == ["tests", "audit", "license_check", "build", "secrets", "style", "typing", "docs", "docs(style)"]
  {
    // The list is built one literal declaration at a time: slicing NoxfileDeclarations()
    // instead makes the solver evaluate eleven prefixes of it, well past the resource limit.
    var d: seq<Declaration> := [];
    DefaultNamesSnoc(d, Declaration("tests", true, None));
    d := d + [Declaration("tests", true, None)];
    DefaultNamesSnoc(d, Declaration("audit", true, None));
    d := d + [Declaration("audit", true, None)];
    DefaultNamesSnoc(d, Declaration("license_check", true, None));
    d := d + [Declaration("license_check", true, None)];
    DefaultNamesSnoc(d, Declaration("build", true, None));
    d := d + [Declaration("build", true, None)];
    DefaultNamesSnoc(d, Declaration("secrets", true, None));
    d := d + [Declaration("secrets", true, None)];
    DefaultNamesSnoc(d, Declaration("style", true, None));
    d := d + [Declaration("style", true, None)];
    DefaultNamesSnoc(d, Declaration("typing", true, None));
    d := d + [Declaration("typing", true, None)];
    DefaultNamesSnoc(d, Declaration("docs", true, None));
    d := d + [Declaration("docs", true, None)];
    DefaultNamesSnoc(d, Declaration("docs_style", true, Some("docs(style)")));
    d := d + [Declaration("docs_style", true, Some("docs(style)"))];
    DefaultNamesSnoc(d, Declaration("bench", false, None));
    d := d + [Declaration("bench", false, None)];
    DefaultNamesSnoc(d, Declaration("requirements", false, None));
    d := d + [Declaration("requirements", false, None)];
    assert d == NoxfileDeclarations();
  }
}
