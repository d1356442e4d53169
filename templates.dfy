/** The template loader of twidder/static/js/templates.js: names are
    queued with `add`, `compile` fetches each queued template as text, and
    a counter with the pending list forms a fan-in barrier that runs the
    completion callback once every fetch has answered. */
module TemplateLoader {
  import opened JsValues
  import opened FlaskServer

  const TemplatePath := "templates/"

  /** The file a template is fetched from. */
  function TemplateUrl(name: string): (url: string)
    ensures url == TemplatePath + name + ".hbs"
    ensures |url| == |name| + 14 && url[10..10 + |name|] == name
  {
    TemplatePath + name + ".hbs"
  }

  /** One `compileTemplate` call: a GET of the template's file in text
      mode, whose completion reports to `onCompletion`. */
  datatype Fetch<C> = Fetch(name: string, url: string, onCompletion: Callback<C>)

  /** How a fetch answered, as its text-mode sender dispatches it (text
      mode never throws): the template text, or the error callback. */
  datatype Outcome = Loaded(text: string) | Failed

  /** What `use(name, context)` returns: undefined when no template is
      found, otherwise the template applied to `context || {}`. The lookup
      goes through an object literal, so a name such as "toString" finds
      the inherited member, which is then called instead. */
  datatype Rendering = NotFound | Rendered(source: string, context: Value) | InheritedCall(member: string, context: Value)

  /** The fetches `compile` starts for a queue: one per name, popping
      from the end, so the last name added is fetched first. */
  function FetchAll<C>(queue: seq<string>, onCompletion: Callback<C>): (r: seq<Fetch<C>>)
    ensures |r| == |queue|
    ensures forall i :: 0 <= i < |queue| ==>
      r[i] == Fetch(queue[|queue| - 1 - i], TemplateUrl(queue[|queue| - 1 - i]), onCompletion)
  {
    if queue == [] then []
    else
      var name := queue[|queue| - 1];
      [Fetch(name, TemplateUrl(name), onCompletion)] + FetchAll(queue[..|queue| - 1], onCompletion)
  }

  class Templates<C> {
    var nbTemplatesRendering: int
    var toCompile: seq<string>
    /** The compiled templates, each kept as the text it was compiled from. */
    var templates: map<string, string>
    /** Every fetch started, in order. */
    var fetches: seq<Fetch<C>>
    /** The fetches that have answered; a request answers once. */
    var completed: set<nat>

    constructor ()
      ensures nbTemplatesRendering == 0 && toCompile == [] && templates == map[]
      ensures fetches == [] && completed == {}
    {
      nbTemplatesRendering, toCompile, templates := 0, [], map[];
      fetches, completed := [], {};
    }

    /** `add(name)`: queue the name and count one more template to wait for. */
    method Add(name: string) returns (self: Templates<C>)
      modifies this
      ensures self == this
      ensures toCompile == old(toCompile) + [name]
      ensures nbTemplatesRendering == old(nbTemplatesRendering) + 1
      ensures templates == old(templates) && fetches == old(fetches) && completed == old(completed)
    {
      toCompile := toCompile + [name];
      nbTemplatesRendering := nbTemplatesRendering + 1;
      self := this;
    }

    /** `compile(onCompletion)`: pops the queue until it is empty, starting
        one fetch per name, last added first. Names already compiled are
        fetched again. */
    method Compile(onCompletion: Callback<C>)
      modifies this
      ensures toCompile == []
      ensures fetches == old(fetches) + FetchAll(old(toCompile), onCompletion)
      ensures nbTemplatesRendering == old(nbTemplatesRendering)
      ensures templates == old(templates) && completed == old(completed)
    {
      ghost var queued := toCompile;
      ghost var started := fetches;
      while toCompile != []
        invariant toCompile == queued[..|toCompile|]
        invariant fetches + FetchAll(toCompile, onCompletion) == started + FetchAll(queued, onCompletion)
        invariant nbTemplatesRendering == old(nbTemplatesRendering)
        invariant templates == old(templates) && completed == old(completed)
        decreases |toCompile|
      {
        var name := toCompile[|toCompile| - 1];
        ghost var before := fetches;
        var fetch := Fetch(name, TemplateUrl(name), onCompletion);
        assert FetchAll(toCompile, onCompletion) == [fetch] + FetchAll(toCompile[..|toCompile| - 1], onCompletion);
        toCompile := toCompile[..|toCompile| - 1];
        fetches := fetches + [fetch];
        assert fetches + FetchAll(toCompile, onCompletion) == before + ([fetch] + FetchAll(toCompile, onCompletion));
      }
    }

    /** The answer of fetch `i` reaches `onCompletionCallback`: the counter
        drops by one, a loaded template is stored under its name, and the
        fetch's completion callback runs exactly when the counter reaches
        zero with nothing left queued. */
    method Complete(i: nat, outcome: Outcome) returns (fired: Option<Callback<C>>)
      requires i < |fetches| && i !in completed
      modifies this
      ensures nbTemplatesRendering == old(nbTemplatesRendering) - 1
      ensures templates == if outcome.Loaded? then old(templates)[old(fetches[i]).name := outcome.text] else old(templates)
      ensures completed == old(completed) + {i}
      ensures fired.Some? <==> nbTemplatesRendering == 0 && toCompile == []
      ensures fired.Some? ==> fired.value == old(fetches[i]).onCompletion
      ensures toCompile == old(toCompile) && fetches == old(fetches)
    {
      if outcome.Loaded? {
        templates := templates[fetches[i].name := outcome.text];
      }
      completed := completed + {i};
      nbTemplatesRendering := nbTemplatesRendering - 1;
      if nbTemplatesRendering == 0 && toCompile == [] {
        fired := Some(fetches[i].onCompletion);
      } else {
        fired := None;
      }
    }

    /** `use(name, context)`. */
    function Use(name: string, context: Value): (r: Rendering)
      reads this
      ensures r.NotFound? <==> name !in templates && name !in ObjectPrototypeMembers
      ensures r.Rendered? <==> name in templates
      ensures r.Rendered? ==> r.source == templates[name]
      ensures !r.NotFound? ==> r.context == (if Truthy(context) then context else Obj([]))
    {
      match ReadLiteral(templates, name)
      case Missing => NotFound
      case Own(source) => Rendered(source, Or(context, Obj([])))
      case Inherited(member) => InheritedCall(member, Or(context, Obj([])))
    }
  }

  /** The distinct fetch indices below n, as a completion order. */
  predicate CompletionOrder(order: seq<nat>, n: nat) {
    (forall j :: 0 <= j < |order| ==> order[j] < n)
    && (forall j, k :: 0 <= j < k < |order| ==> order[j] != order[k])
  }

  /** The barrier, end to end: a fresh loader gets `add` for each name,
      one `compile`, and then the fetches answer in the given order with
      the given outcomes. The completion callback runs on the completion
      that brings the count to the number of names, and on no other; with
      no names there is nothing to fetch and it never runs. A name ends up
      compiled exactly when one of its fetches loaded. */
  method RunBarrier<C>(names: seq<string>, onCompletion: Callback<C>, order: seq<nat>, outcomes: seq<Outcome>)
    returns (firings: seq<Option<Callback<C>>>, compiled: map<string, string>)
    requires CompletionOrder(order, |names|) && |outcomes| == |order|
    ensures |firings| == |order|
    ensures forall j :: 0 <= j < |order| ==> (firings[j].Some? <==> j == |names| - 1)
    ensures forall j :: 0 <= j < |order| && firings[j].Some? ==> firings[j].value == onCompletion
    ensures forall name :: name in compiled <==>
      exists j :: 0 <= j < |order| && outcomes[j].Loaded? && names[|names| - 1 - order[j]] == name
  {
    var loader := new Templates<C>();
    var k := 0;
    while k < |names|
      invariant 0 <= k <= |names|
      invariant loader.toCompile == names[..k] && loader.nbTemplatesRendering == k
      invariant loader.templates == map[] && loader.fetches == [] && loader.completed == {}
    {
      var _ := loader.Add(names[k]);
      k := k + 1;
    }
    assert names[..k] == names;
    loader.Compile(onCompletion);
    firings := AnswerAll(loader, names, onCompletion, order, outcomes);
    compiled := loader.templates;
  }

  /** The answers reaching a loader whose fetches were all started by one
      `compile` of `names`, in the given order and with the given outcomes. */
  method AnswerAll<C>(loader: Templates<C>, names: seq<string>, onCompletion: Callback<C>, order: seq<nat>, outcomes: seq<Outcome>)
    returns (firings: seq<Option<Callback<C>>>)
    requires CompletionOrder(order, |names|) && |outcomes| == |order|
    requires loader.toCompile == [] && loader.nbTemplatesRendering == |names|
    requires loader.fetches == FetchAll(names, onCompletion)
    requires loader.templates == map[] && loader.completed == {}
    modifies loader
    ensures |firings| == |order|
    ensures forall j :: 0 <= j < |order| ==> (firings[j].Some? <==> j == |names| - 1)
    ensures forall j :: 0 <= j < |order| && firings[j].Some? ==> firings[j].value == onCompletion
    ensures forall name :: name in loader.templates <==>
      exists j :: 0 <= j < |order| && outcomes[j].Loaded? && names[|names| - 1 - order[j]] == name
  {
    assert forall i :: 0 <= i < |names| ==> loader.fetches[i].name == names[|names| - 1 - i];
    firings := [];
    var j := 0;
    while j < |order|
      invariant 0 <= j <= |order| && |firings| == j
      invariant loader.toCompile == [] && loader.nbTemplatesRendering == |names| - j
      invariant |loader.fetches| == |names|
      invariant forall i :: 0 <= i < |names| ==> loader.fetches[i].name == names[|names| - 1 - i]
      invariant forall i :: 0 <= i < |names| ==> loader.fetches[i].onCompletion == onCompletion
      invariant loader.completed == set m | 0 <= m < j :: order[m]
      invariant forall m :: 0 <= m < j ==> (firings[m].Some? <==> m == |names| - 1)
      invariant forall m :: 0 <= m < j && firings[m].Some? ==> firings[m].value == onCompletion
      invariant forall name :: name in loader.templates <==>
        exists m :: 0 <= m < j && outcomes[m].Loaded? && names[|names| - 1 - order[m]] == name
    {
      assert order[j] !in loader.completed;
      var fired := loader.Complete(order[j], outcomes[j]);
      firings := firings + [fired];
      j := j + 1;
    }
  }
}
