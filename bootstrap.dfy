/**
 * Model of `bootstrap`: one pass over the inline `<script type="text/x-handlebars">`
 * elements of a document (or of one element's subtree). Each, in document
 * order, is named, compiled, checked against the template registry, registered
 * and removed from the document; a name that is already registered stops the
 * pass with an error, and nothing done before it is undone.
 *
 * The document is a flat sequence of elements in document order, each knowing
 * the keys of its ancestors; the template compiler is a parameter; the
 * registry's `hasTemplate`/`setTemplate` are membership in and update of a map.
 */
module TemplateBootstrap {
  import opened Wrappers

  // ---------------------------------------------------------------------------
  // Values
  // ---------------------------------------------------------------------------

  /** A compiled template factory; only its identity matters here. */
  datatype Template = Template(id: nat)

  /** `compile(source, { moduleName })`, left uninterpreted. */
  type Compiler = (string, string) -> Template

  /** One element of the document; `null` attributes are `None`. */
  datatype Element = Element(
    key: nat,
    ancestors: set<nat>,
    localName: string,
    typeAttribute: Option<string>,
    dataTemplateName: Option<string>,
    id: Option<string>,
    innerHTML: string)

  /** Where `querySelectorAll` looks: the whole document, or the descendants of one element. */
  datatype Context = WholeDocument | Subtree(root: nat)

  /** The error thrown for a name that is already registered. */
  datatype BootstrapError = TemplateAlreadyExists(name: string)

  /** One invocation of the compiler: the script's body and the module name it was given. */
  datatype CompileCall = CompileCall(source: string, moduleName: string)

  /** Distinct elements of a document are distinct nodes. */
  ghost predicate DistinctKeys(nodes: seq<Element>)
  {
    forall p, q :: 0 <= p < |nodes| && 0 <= q < |nodes| && p != q ==> nodes[p].key != nodes[q].key
  }

  // ---------------------------------------------------------------------------
  // Selecting the scripts and naming them
  // ---------------------------------------------------------------------------

  /** The selector `script[type="text/x-handlebars"]`. */
  predicate IsTemplateScript(e: Element)
  {
    e.localName == "script" && e.typeAttribute == Some("text/x-handlebars")
  }

  predicate InContext(context: Context, e: Element)
  {
    context.WholeDocument? || context.root in e.ancestors
  }

  /** `context.querySelectorAll(selector)`: the matching elements, in document order. */
  function Select(nodes: seq<Element>, context: Context): (r: seq<Element>)
    ensures |r| <= |nodes|
    ensures forall e :: e in r <==> e in nodes && IsTemplateScript(e) && InContext(context, e)
  {
    if nodes == [] then []
    else (if IsTemplateScript(nodes[0]) && InContext(context, nodes[0]) then [nodes[0]] else [])
         + Select(nodes[1..], context)
  }

  /** The selected scripts are distinct nodes. */
  lemma {:induction false} SelectDistinct(nodes: seq<Element>, context: Context)
    requires DistinctKeys(nodes)
    ensures DistinctKeys(Select(nodes, context))
  {
    if nodes != [] {
      var rest := Select(nodes[1..], context);
      assert DistinctKeys(nodes[1..]) by {
        forall p, q | 0 <= p < |nodes[1..]| && 0 <= q < |nodes[1..]| && p != q
          ensures nodes[1..][p].key != nodes[1..][q].key
        {
          assert nodes[1..][p] == nodes[p + 1] && nodes[1..][q] == nodes[q + 1];
        }
      }
      SelectDistinct(nodes[1..], context);
      if IsTemplateScript(nodes[0]) && InContext(context, nodes[0]) {
        forall q | 0 <= q < |rest| ensures rest[q].key != nodes[0].key {
          assert rest[q] in nodes[1..];
          var m :| 0 <= m < |nodes[1..]| && nodes[1..][m] == rest[q];
          assert nodes[m + 1] == rest[q];
        }
        var r := [nodes[0]] + rest;
        forall p, q | 0 <= p < |r| && 0 <= q < |r| && p != q ensures r[p].key != r[q].key {
          if p > 0 && q > 0 {
            assert r[p] == rest[p - 1] && r[q] == rest[q - 1];
          } else if p == 0 {
            assert r[q] == rest[q - 1];
          } else {
            assert r[p] == rest[p - 1];
          }
        }
      } else {
        assert Select(nodes, context) == rest;
      }
    }
  }

  /** Selection runs in document order: the selection of a concatenation is the concatenation of the selections. */
  lemma {:induction false} SelectAppend(a: seq<Element>, b: seq<Element>, context: Context)
    ensures Select(a + b, context) == Select(a, context) + Select(b, context)
  {
    if a == [] {
      assert a + b == b;
    } else {
      assert (a + b)[0] == a[0];
      assert (a + b)[1..] == a[1..] + b;
      SelectAppend(a[1..], b, context);
    }
  }

  /** The tail of a document of distinct nodes is distinct, and none of its keys is the head's. */
  lemma DistinctTail(nodes: seq<Element>)
    requires nodes != [] && DistinctKeys(nodes)
    ensures DistinctKeys(nodes[1..])
    ensures forall e :: e in nodes[1..] ==> e.key != nodes[0].key
  {
    forall p, q | 0 <= p < |nodes[1..]| && 0 <= q < |nodes[1..]| && p != q
      ensures nodes[1..][p].key != nodes[1..][q].key
    {
      assert nodes[1..][p] == nodes[p + 1] && nodes[1..][q] == nodes[q + 1];
    }
    forall e | e in nodes[1..] ensures e.key != nodes[0].key {
      var m :| 0 <= m < |nodes[1..]| && nodes[1..][m] == e;
      assert nodes[m + 1] == e;
    }
  }

  /** An element whose key no node of a distinct document carries can be put in front of it. */
  lemma DistinctCons(x: Element, nodes: seq<Element>)
    requires DistinctKeys(nodes)
    requires forall e :: e in nodes ==> e.key != x.key
    ensures DistinctKeys([x] + nodes)
  {
    var r := [x] + nodes;
    forall p, q | 0 <= p < |r| && 0 <= q < |r| && p != q ensures r[p].key != r[q].key {
      if p > 0 && q > 0 {
        assert r[p] == nodes[p - 1] && r[q] == nodes[q - 1];
      } else if p == 0 {
        assert r[q] == nodes[q - 1];
      } else {
        assert r[p] == nodes[p - 1];
      }
    }
  }

  /** No `context` means the whole document. */
  function ResolveContext(context: Option<Context>): (r: Context)
    ensures context.Some? ==> r == context.value
    ensures context.None? ==> r.WholeDocument?
  {
    if context.Some? then context.value else WholeDocument
  }

  /** An attribute as a JavaScript condition: `null` and `""` are falsy. */
  predicate IsTruthy(attribute: Option<string>)
  {
    attribute.Some? && attribute.value != ""
  }

  /** `data-template-name || id || "application"` */
  function TemplateName(script: Element): (name: string)
    ensures name != ""
  {
    if IsTruthy(script.dataTemplateName) then script.dataTemplateName.value
    else if IsTruthy(script.id) then script.id.value
    else "application"
  }

  // ---------------------------------------------------------------------------
  // The pass as a function of the scripts and the registry
  // ---------------------------------------------------------------------------

  /** Where a pass ends: the registry, how many scripts were registered and removed, the error if any. */
  datatype PassState = PassState(templates: map<string, Template>, processed: nat, error: Option<BootstrapError>)

  /** The pass from script `i` on, with registry `templates`. */
  function Run(scripts: seq<Element>, i: nat, templates: map<string, Template>, compile: Compiler): (r: PassState)
    requires i <= |scripts|
    ensures i <= r.processed <= |scripts|
    ensures r.error.None? <==> r.processed == |scripts|
    decreases |scripts| - i
  {
    if i == |scripts| then PassState(templates, i, None)
    else
      var name := TemplateName(scripts[i]);
      if name in templates then PassState(templates, i, Some(TemplateAlreadyExists(name)))
      else Run(scripts, i + 1, templates[name := compile(scripts[i].innerHTML, name)], compile)
  }

  /** The keys of some elements. */
  function Keys(elements: seq<Element>): set<nat>
  {
    set e | e in elements :: e.key
  }

  /** The document without the elements whose keys are in `keys`. */
  function Without(nodes: seq<Element>, keys: set<nat>): seq<Element>
  {
    if nodes == [] then []
    else (if nodes[0].key in keys then [] else [nodes[0]]) + Without(nodes[1..], keys)
  }

  /** The compiler invocations for `scripts`, in order. */
  function CompileCalls(scripts: seq<Element>): (r: seq<CompileCall>)
    ensures |r| == |scripts|
    ensures forall k :: 0 <= k < |r| ==>
      r[k] == CompileCall(scripts[k].innerHTML, TemplateName(scripts[k]))
  {
    if scripts == [] then []
    else CompileCalls(scripts[..|scripts| - 1])
         + [CompileCall(scripts[|scripts| - 1].innerHTML, TemplateName(scripts[|scripts| - 1]))]
  }

  /** Removing by key keeps exactly the elements whose keys were not removed. */
  lemma {:induction false} WithoutKeeps(nodes: seq<Element>, keys: set<nat>)
    ensures forall e :: e in Without(nodes, keys) <==> e in nodes && e.key !in keys
  {
    if nodes != [] {
      WithoutKeeps(nodes[1..], keys);
      assert nodes == [nodes[0]] + nodes[1..];
    }
  }

  /** Removing nodes from a document of distinct nodes leaves distinct nodes. */
  lemma {:induction false} WithoutDistinct(nodes: seq<Element>, keys: set<nat>)
    requires DistinctKeys(nodes)
    ensures DistinctKeys(Without(nodes, keys))
  {
    if nodes != [] {
      DistinctTail(nodes);
      WithoutDistinct(nodes[1..], keys);
      WithoutKeeps(nodes[1..], keys);
      if nodes[0].key !in keys {
        DistinctCons(nodes[0], Without(nodes[1..], keys));
      } else {
        assert Without(nodes, keys) == Without(nodes[1..], keys);
      }
    }
  }

  lemma {:induction false} WithoutStep(nodes: seq<Element>, keys: set<nat>, key: nat)
    ensures Without(Without(nodes, keys), {key}) == Without(nodes, keys + {key})
  {
    if nodes != [] {
      WithoutStep(nodes[1..], keys, key);
      var head := if nodes[0].key in keys then [] else [nodes[0]];
      assert Without(nodes, keys) == head + Without(nodes[1..], keys);
      WithoutAppend(head, Without(nodes[1..], keys), {key});
    }
  }

  lemma {:induction false} WithoutNothing(nodes: seq<Element>)
    ensures Without(nodes, {}) == nodes
  {
    if nodes != [] {
      WithoutNothing(nodes[1..]);
    }
  }

  lemma WithoutCons(x: Element, rest: seq<Element>, keys: set<nat>)
    ensures Without([x] + rest, keys) == (if x.key in keys then [] else [x]) + Without(rest, keys)
  {
    assert ([x] + rest)[0] == x;
    assert ([x] + rest)[1..] == rest;
  }

  lemma {:induction false} WithoutAppend(a: seq<Element>, b: seq<Element>, keys: set<nat>)
    ensures Without(a + b, keys) == Without(a, keys) + Without(b, keys)
  {
    if a != [] {
      var head := if a[0].key in keys then [] else [a[0]];
      assert a == [a[0]] + a[1..];
      assert a + b == [a[0]] + (a[1..] + b);
      WithoutCons(a[0], a[1..] + b, keys);
      WithoutCons(a[0], a[1..], keys);
      WithoutAppend(a[1..], b, keys);
      assert Without(a + b, keys) == head + (Without(a[1..], keys) + Without(b, keys));
    } else {
      assert a + b == b;
    }
  }

  /** Removing script `i` after scripts `0..i-1` leaves the document without scripts `0..i`. */
  lemma RemoveNext(nodes: seq<Element>, scripts: seq<Element>, i: nat)
    requires i < |scripts|
    ensures Without(Without(nodes, Keys(scripts[..i])), {scripts[i].key}) == Without(nodes, Keys(scripts[..i + 1]))
  {
    assert scripts[..i + 1] == scripts[..i] + [scripts[i]];
    assert Keys(scripts[..i + 1]) == Keys(scripts[..i]) + {scripts[i].key};
    WithoutStep(nodes, Keys(scripts[..i]), scripts[i].key);
  }

  /** Compiling script `i` after scripts `0..i-1` extends the list of compiler invocations by one. */
  lemma CompileNext(scripts: seq<Element>, i: nat)
    requires i < |scripts|
    ensures CompileCalls(scripts[..i + 1])
         == CompileCalls(scripts[..i]) + [CompileCall(scripts[i].innerHTML, TemplateName(scripts[i]))]
  {
    assert scripts[..i + 1][..i] == scripts[..i];
  }

  // ---------------------------------------------------------------------------
  // The registry, the document and the pass
  // ---------------------------------------------------------------------------

  /** The templates known by name: behind `hasTemplate` and `setTemplate`. */
  class TemplateRegistry {
    var templates: map<string, Template>

    constructor (templates: map<string, Template>)
      ensures this.templates == templates
    {
      this.templates := templates;
    }

    /** `hasTemplate(name)`: a template is registered under `name`. */
    predicate HasTemplate(name: string): (r: bool)
      reads this
      ensures r <==> name in templates
    {
      name in templates
    }

    method SetTemplate(name: string, template: Template)
      modifies this
      ensures templates == old(templates)[name := template]
      ensures HasTemplate(name)
    {
      templates := templates[name := template];
    }
  }

  /** The elements of the page, in document order. */
  class Document {
    var nodes: seq<Element>

    /** Each node occurs once: `key` is node identity. */
    ghost predicate Valid()
      reads this
    {
      DistinctKeys(nodes)
    }

    constructor (nodes: seq<Element>)
      requires DistinctKeys(nodes)
      ensures Valid() && this.nodes == nodes
    {
      this.nodes := nodes;
    }

    /** A static list of the matching elements. */
    method QuerySelectorAll(context: Context) returns (elements: seq<Element>)
      ensures elements == Select(nodes, context)
    {
      elements := Select(nodes, context);
    }

    /** `element.parentNode.removeChild(element)` */
    method Remove(element: Element)
      requires Valid()
      modifies this
      ensures Valid()
      ensures nodes == Without(old(nodes), {element.key})
    {
      WithoutDistinct(nodes, {element.key});
      nodes := Without(nodes, {element.key});
    }
  }

  /**
   * The pass. `result` is `None` when it returns normally and the error when it
   * throws; `compiles` lists the compiler invocations made before that.
   */
  method Bootstrap(context: Option<Context>, document: Document, registry: TemplateRegistry, compile: Compiler)
    returns (result: Option<BootstrapError>, compiles: seq<CompileCall>)
    requires document.Valid()
    modifies document, registry
    ensures document.Valid()
    ensures
      var scripts := Select(old(document.nodes), ResolveContext(context));
      var pass := Run(scripts, 0, old(registry.templates), compile);
      && result == pass.error
      && registry.templates == pass.templates
      && document.nodes == Without(old(document.nodes), Keys(scripts[..pass.processed]))
      && pass.processed <= |scripts|
      && compiles == CompileCalls(scripts[..if result.Some? then pass.processed + 1 else pass.processed])
  {
    var ctx := ResolveContext(context);
    var elements := document.QuerySelectorAll(ctx);
    result, compiles := ProcessScripts(elements, document, registry, compile);
  }

  /**
   * The `for…of` loop of the pass over a static list of scripts: name, compile,
   * check, register, remove, stopping at the first name already registered.
   */
  method ProcessScripts(elements: seq<Element>, document: Document, registry: TemplateRegistry, compile: Compiler)
    returns (result: Option<BootstrapError>, compiles: seq<CompileCall>)
    requires document.Valid()
    modifies document, registry
    ensures document.Valid()
    ensures
      var pass := Run(elements, 0, old(registry.templates), compile);
      && result == pass.error
      && registry.templates == pass.templates
      && document.nodes == Without(old(document.nodes), Keys(elements[..pass.processed]))
      && compiles == CompileCalls(elements[..if result.Some? then pass.processed + 1 else pass.processed])
  {
    ghost var nodes0 := document.nodes;
    ghost var templates0 := registry.templates;
    compiles := [];
    WithoutNothing(nodes0);
    assert Keys(elements[..0]) == {};
    for i := 0 to |elements|
      invariant Run(elements, 0, templates0, compile) == Run(elements, i, registry.templates, compile)
      invariant document.nodes == Without(nodes0, Keys(elements[..i]))
      invariant document.Valid()
      invariant compiles == CompileCalls(elements[..i])
    {
      var script := elements[i];
      var templateName := TemplateName(script);
      var template := compile(script.innerHTML, templateName);
      compiles := compiles + [CompileCall(script.innerHTML, templateName)];
      CompileNext(elements, i);
      if registry.HasTemplate(templateName) {
        return Some(TemplateAlreadyExists(templateName)), compiles;
      }
      registry.SetTemplate(templateName, template);
      document.Remove(script);
      RemoveNext(nodes0, elements, i);
    }
    assert elements[..|elements|] == elements;
    result := None;
  }

  // ---------------------------------------------------------------------------
  // Properties of the pass
  // ---------------------------------------------------------------------------

  /** The name script `k` is registered under. */
  function NameOf(scripts: seq<Element>, k: nat): string
    requires k < |scripts|
  {
    TemplateName(scripts[k])
  }

  /** The names of scripts `i..j-1`. */
  function NamesBetween(scripts: seq<Element>, i: nat, j: nat): set<string>
    requires i <= j <= |scripts|
  {
    set k | i <= k < j :: NameOf(scripts, k)
  }

  lemma NamesBetweenStep(scripts: seq<Element>, i: nat, j: nat)
    requires i < j <= |scripts|
    ensures NamesBetween(scripts, i, j) == {NameOf(scripts, i)} + NamesBetween(scripts, i + 1, j)
  {
    assert forall n :: n in NamesBetween(scripts, i, j) ==> n in {NameOf(scripts, i)} + NamesBetween(scripts, i + 1, j) by {
      forall n | n in NamesBetween(scripts, i, j)
        ensures n in {NameOf(scripts, i)} + NamesBetween(scripts, i + 1, j)
      {
        var k :| i <= k < j && NameOf(scripts, k) == n;
        if k > i {
          assert n in NamesBetween(scripts, i + 1, j);
        }
      }
    }
  }

  /** The scripts a pass registers carry names that were free and are pairwise distinct. */
  lemma {:induction false} RunNamesFresh(scripts: seq<Element>, i: nat, templates: map<string, Template>,
                                         compile: Compiler)
    requires i <= |scripts|
    ensures var r := Run(scripts, i, templates, compile);
      && (forall k :: i <= k < r.processed ==> NameOf(scripts, k) !in templates)
      && (forall k, k' :: i <= k' < k < r.processed ==> NameOf(scripts, k') != NameOf(scripts, k))
    decreases |scripts| - i
  {
    if i < |scripts| && NameOf(scripts, i) !in templates {
      var next := templates[NameOf(scripts, i) := compile(scripts[i].innerHTML, NameOf(scripts, i))];
      RunNamesFresh(scripts, i + 1, next, compile);
    }
  }

  /** A pass adds to the registry exactly the names of the scripts it registers. */
  lemma {:induction false} RunKeys(scripts: seq<Element>, i: nat, templates: map<string, Template>,
                                   compile: Compiler)
    requires i <= |scripts|
    ensures var r := Run(scripts, i, templates, compile);
      r.templates.Keys == templates.Keys + NamesBetween(scripts, i, r.processed)
    decreases |scripts| - i
  {
    var r := Run(scripts, i, templates, compile);
    if i < |scripts| && NameOf(scripts, i) !in templates {
      var next := templates[NameOf(scripts, i) := compile(scripts[i].innerHTML, NameOf(scripts, i))];
      RunKeys(scripts, i + 1, next, compile);
      NamesBetweenStep(scripts, i, r.processed);
    } else {
      assert NamesBetween(scripts, i, r.processed) == {};
    }
  }

  /** Each registered script is bound to its compiled body; earlier entries keep their templates. */
  lemma {:induction false} RunValues(scripts: seq<Element>, i: nat, templates: map<string, Template>,
                                     compile: Compiler)
    requires i <= |scripts|
    ensures var r := Run(scripts, i, templates, compile);
      && (forall k :: i <= k < r.processed ==>
            NameOf(scripts, k) in r.templates &&
            r.templates[NameOf(scripts, k)] == compile(scripts[k].innerHTML, NameOf(scripts, k)))
      && (forall n :: n in templates ==> n in r.templates && r.templates[n] == templates[n])
    decreases |scripts| - i
  {
    if i < |scripts| && NameOf(scripts, i) !in templates {
      var next := templates[NameOf(scripts, i) := compile(scripts[i].innerHTML, NameOf(scripts, i))];
      RunValues(scripts, i + 1, next, compile);
    }
  }

  /** A pass that stops, stops at a script whose name the registry already holds, and names it. */
  lemma {:induction false} RunStops(scripts: seq<Element>, i: nat, templates: map<string, Template>,
                                    compile: Compiler)
    requires i <= |scripts|
    ensures var r := Run(scripts, i, templates, compile);
      r.error.Some? ==>
        && r.error == Some(TemplateAlreadyExists(NameOf(scripts, r.processed)))
        && NameOf(scripts, r.processed) in r.templates
    decreases |scripts| - i
  {
    if i < |scripts| && NameOf(scripts, i) !in templates {
      var next := templates[NameOf(scripts, i) := compile(scripts[i].innerHTML, NameOf(scripts, i))];
      RunStops(scripts, i + 1, next, compile);
    }
  }

  /**
   * A pass returns normally exactly when no script's derived name is already
   * registered and no two scripts derive the same name.
   */
  lemma BootstrapSucceedsIff(scripts: seq<Element>, templates: map<string, Template>, compile: Compiler)
    ensures Run(scripts, 0, templates, compile).error.None?
        <==> && (forall k :: 0 <= k < |scripts| ==> NameOf(scripts, k) !in templates)
             && (forall k, k' :: 0 <= k' < k < |scripts| ==> NameOf(scripts, k') != NameOf(scripts, k))
  {
    var r := Run(scripts, 0, templates, compile);
    RunNamesFresh(scripts, 0, templates, compile);
    RunKeys(scripts, 0, templates, compile);
    RunStops(scripts, 0, templates, compile);
    if r.error.Some? {
      var n := NameOf(scripts, r.processed);
      if n !in templates {
        assert n in NamesBetween(scripts, 0, r.processed);
        var k :| 0 <= k < r.processed && NameOf(scripts, k) == n;
      }
    }
  }

  /**
   * After a pass that returns normally the registry holds, besides its earlier
   * entries, exactly one new entry per script: its compiled body under its name.
   */
  lemma SuccessfulPassRegistersEveryScript(scripts: seq<Element>, templates: map<string, Template>,
                                           compile: Compiler)
    requires Run(scripts, 0, templates, compile).error.None?
    ensures var r := Run(scripts, 0, templates, compile).templates;
      && r.Keys == templates.Keys + NamesBetween(scripts, 0, |scripts|)
      && |r| == |templates| + |scripts|
      && (forall k :: 0 <= k < |scripts| ==>
            NameOf(scripts, k) in r && r[NameOf(scripts, k)] == compile(scripts[k].innerHTML, NameOf(scripts, k)))
      && (forall n :: n in templates ==> r[n] == templates[n])
  {
    RunNamesFresh(scripts, 0, templates, compile);
    RunKeys(scripts, 0, templates, compile);
    RunValues(scripts, 0, templates, compile);
    var r := Run(scripts, 0, templates, compile).templates;
    var names := NamesBetween(scripts, 0, |scripts|);
    assert templates.Keys !! names;
    NamesCount(scripts, |scripts|);
    assert |r.Keys| == |templates.Keys| + |names|;
  }

  /** Pairwise distinct names of `n` scripts form a set of `n` names. */
  lemma {:induction false} NamesCount(scripts: seq<Element>, n: nat)
    requires n <= |scripts|
    requires forall k, k' :: 0 <= k' < k < n ==> NameOf(scripts, k') != NameOf(scripts, k)
    ensures |NamesBetween(scripts, 0, n)| == n
  {
    if n > 0 {
      NamesCount(scripts, n - 1);
      var before := NamesBetween(scripts, 0, n - 1);
      assert NamesBetween(scripts, 0, n) == before + {NameOf(scripts, n - 1)};
      assert NameOf(scripts, n - 1) !in before;
    }
  }

  /**
   * Two scripts of one pass with the same derived name: the later one makes the
   * pass fail, before it is registered or removed.
   */
  lemma SameNameTwiceFails(scripts: seq<Element>, templates: map<string, Template>, compile: Compiler,
                           j: nat, k: nat)
    requires j < k < |scripts|
    requires NameOf(scripts, j) == NameOf(scripts, k)
    ensures Run(scripts, 0, templates, compile).error.Some?
    ensures Run(scripts, 0, templates, compile).processed <= k
  {
    RunNamesFresh(scripts, 0, templates, compile);
  }

  /** After a pass that stopped, the registry holds the earlier entries plus those of the scripts before the failing one. */
  lemma FailedPassKeepsEarlierScripts(scripts: seq<Element>, templates: map<string, Template>, compile: Compiler)
    requires Run(scripts, 0, templates, compile).error.Some?
    ensures var r := Run(scripts, 0, templates, compile);
      && r.processed < |scripts|
      && r.error == Some(TemplateAlreadyExists(NameOf(scripts, r.processed)))
      && NameOf(scripts, r.processed) in r.templates
      && r.templates.Keys == templates.Keys + NamesBetween(scripts, 0, r.processed)
      && (forall n :: n in templates ==> r.templates[n] == templates[n])
  {
    RunKeys(scripts, 0, templates, compile);
    RunValues(scripts, 0, templates, compile);
    RunStops(scripts, 0, templates, compile);
  }

  /**
   * The script that stops a pass has already been compiled under the name the
   * error reports: compilation comes before the duplicate check.
   */
  lemma FailingScriptIsCompiled(scripts: seq<Element>, templates: map<string, Template>, compile: Compiler)
    requires Run(scripts, 0, templates, compile).error.Some?
    ensures var r := Run(scripts, 0, templates, compile);
      var calls := CompileCalls(scripts[..r.processed + 1]);
      && |calls| == r.processed + 1
      && calls[r.processed] == CompileCall(scripts[r.processed].innerHTML, r.error.value.name)
  {
    RunStops(scripts, 0, templates, compile);
  }

  /** With no `context`, every template script of the document is selected, in document order. */
  lemma DefaultContextScansDocument(nodes: seq<Element>)
    ensures Select(nodes, ResolveContext(None)) == Select(nodes, WholeDocument)
    ensures forall e :: e in Select(nodes, ResolveContext(None)) <==> e in nodes && IsTemplateScript(e)
  {
  }

  /** The name falls back from a non-empty `data-template-name` to a non-empty `id` to `"application"`. */
  lemma TemplateNameFallback(script: Element)
    ensures IsTruthy(script.dataTemplateName) ==> TemplateName(script) == script.dataTemplateName.value
    ensures !IsTruthy(script.dataTemplateName) && IsTruthy(script.id) ==> TemplateName(script) == script.id.value
    ensures !IsTruthy(script.dataTemplateName) && !IsTruthy(script.id) ==> TemplateName(script) == "application"
  {
  }

  /** After a pass that returns normally, no matching script is left in the selected part of the document. */
  lemma NoTemplateScriptRemains(nodes: seq<Element>, context: Context)
    ensures Select(Without(nodes, Keys(Select(nodes, context))), context) == []
  {
    var selected := Select(nodes, context);
    var rest := Select(Without(nodes, Keys(selected)), context);
    WithoutKeeps(nodes, Keys(selected));
    assert |rest| > 0 ==> rest[0] in rest;
    forall e | e in selected ensures e.key in Keys(selected) {
    }
  }

  /** After a pass that stopped, the failing script and every later one are still in the document. */
  lemma FailingScriptStays(nodes: seq<Element>, context: Context, templates: map<string, Template>,
                           compile: Compiler)
    requires DistinctKeys(nodes)
    ensures var scripts := Select(nodes, context);
      var r := Run(scripts, 0, templates, compile);
      forall k :: r.processed <= k < |scripts| ==> scripts[k] in Without(nodes, Keys(scripts[..r.processed]))
  {
    var scripts := Select(nodes, context);
    var r := Run(scripts, 0, templates, compile);
    SelectDistinct(nodes, context);
    WithoutKeeps(nodes, Keys(scripts[..r.processed]));
    forall k | r.processed <= k < |scripts|
      ensures scripts[k] in Without(nodes, Keys(scripts[..r.processed]))
    {
      assert scripts[k] in scripts;
      KeyNotInPrefix(scripts, r.processed, k);
    }
  }

  /** With distinct keys, a later script's key is not among the keys of an earlier prefix. */
  lemma KeyNotInPrefix(scripts: seq<Element>, p: nat, k: nat)
    requires DistinctKeys(scripts)
    requires p <= k < |scripts|
    ensures scripts[k].key !in Keys(scripts[..p])
  {
    forall e | e in scripts[..p] ensures e.key != scripts[k].key {
      var m :| 0 <= m < p && scripts[..p][m] == e;
      assert scripts[m] == e;
    }
  }
}
