/** The web client's router: a table of path templates, tried in order,
    where each `:name` segment captures one non-empty path segment and the
    template must cover the whole path; the first template that matches
    picks the page, and a path no template matches shows the restaurants
    page. */
module Router {
  import opened Common

  datatype Page = RestaurantsPage | RestaurantDetailPage | OrderCheckoutPage | OrderTrackingPage

  datatype Route = Route(template: string, page: Page)

  /** The route table, in declaration order. */
  const Routes: seq<Route> := [
    Route("/", RestaurantsPage),
    Route("/restaurants", RestaurantsPage),
    Route("/restaurants/:id", RestaurantDetailPage),
    Route("/order/checkout/:id", OrderCheckoutPage),
    Route("/order/:id", OrderTrackingPage)
  ]

  // ---------------------------------------------------------------------
  // Paths as segments.

  /** The position of the first `c` in `s`. */
  function FirstIndex(s: string, c: char): (k: nat)
    requires c in s
    ensures k < |s| && s[k] == c && c !in s[..k]
  {
    if s[0] == c then 0
    else
      var k := FirstIndex(s[1..], c);
      assert s[..k + 1] == [s[0]] + s[1..][..k];
      k + 1
  }

  /** The segments of a path: the pieces between its slashes. */
  function Split(s: string): (parts: seq<string>)
    ensures |parts| >= 1 && forall i :: 0 <= i < |parts| ==> '/' !in parts[i]
    decreases |s|
  {
    if '/' in s then
      var k := FirstIndex(s, '/');
      [s[..k]] + Split(s[k + 1..])
    else [s]
  }

  /** The path with these segments. */
  function Join(parts: seq<string>): string
    requires |parts| >= 1
    decreases |parts|
  {
    if |parts| == 1 then parts[0] else parts[0] + "/" + Join(parts[1..])
  }

  /** Joining the segments of a path gives the path back. */
  lemma {:induction false} JoinSplit(s: string)
    ensures Join(Split(s)) == s
    decreases |s|
  {
    if '/' in s {
      var k := FirstIndex(s, '/');
      JoinSplit(s[k + 1..]);
      assert ([s[..k]] + Split(s[k + 1..]))[1..] == Split(s[k + 1..]);
      assert s == s[..k] + "/" + s[k + 1..];
    }
  }

  /** Splitting a path made of slash-free segments gives the segments
      back. */
  lemma {:induction false} SplitJoin(parts: seq<string>)
    requires |parts| >= 1 && forall i :: 0 <= i < |parts| ==> '/' !in parts[i]
    ensures Split(Join(parts)) == parts
    decreases |parts|
  {
    if |parts| > 1 {
      SplitCons(parts[0], Join(parts[1..]));
      SplitJoin(parts[1..]);
      assert parts == [parts[0]] + parts[1..];
    }
  }

  /** The first segment of a path ends at its first slash. */
  lemma SplitCons(p0: string, rest: string)
    requires '/' !in p0
    ensures Split(p0 + "/" + rest) == [p0] + Split(rest)
  {
    var s := p0 + "/" + rest;
    assert s[|p0|] == '/';
    var k := FirstIndex(s, '/');
    assert k == |p0|;
    assert s[..k] == p0 && s[k + 1..] == rest;
  }

  // ---------------------------------------------------------------------
  // Templates.

  /** A template segment after `:([^/]+)` is replaced by `([^/]+)`:
      literal text, then possibly a parameter taking the rest of the
      segment. */
  datatype Segment = Segment(prefix: string, param: Option<string>)

  /** One template segment: a ':' followed by at least one character
      starts a parameter whose name is the rest of the segment; any other
      text, including a final ':', is literal. */
  function Compile(seg: string): (c: Segment)
    ensures c.param.None? ==> c.prefix == seg && (':' !in seg || seg[|seg| - 1] == ':')
    ensures c.param.Some? ==> seg == c.prefix + ":" + c.param.value && ':' !in c.prefix && c.param.value != ""
  {
    if ':' in seg then
      var k := FirstIndex(seg, ':');
      if k + 1 < |seg| then
        assert seg == seg[..k] + ":" + seg[k + 1..];
        Segment(seg[..k], Some(seg[k + 1..]))
      else Segment(seg, None)
    else Segment(seg, None)
  }

  /** The segments of a template, compiled. */
  function Pattern(template: string): (cs: seq<Segment>)
    ensures |cs| == |Split(template)| >= 1
    ensures forall i :: 0 <= i < |cs| ==> cs[i] == Compile(Split(template)[i])
  {
    var parts := Split(template);
    seq(|parts|, i requires 0 <= i < |parts| => Compile(parts[i]))
  }

  /** The parameter names of a compiled template, left to right. */
  function ParamNames(cs: seq<Segment>): seq<string>
    decreases |cs|
  {
    if cs == [] then []
    else (if cs[0].param.Some? then [cs[0].param.value] else []) + ParamNames(cs[1..])
  }

  /** One path segment against one template segment: no match, a literal
      match, or a match capturing the text after the literal prefix. */
  function MatchSegment(c: Segment, part: string): Option<Option<string>>
  {
    if c.param.None? then (if part == c.prefix then Some(None) else None)
    else if |part| > |c.prefix| && part[..|c.prefix|] == c.prefix then Some(Some(part[|c.prefix|..]))
    else None
  }

  /** Path segments against template segments, one for one: the captures
      in order, or None. */
  function MatchParts(cs: seq<Segment>, parts: seq<string>): Option<seq<string>>
    requires |cs| == |parts|
    decreases |cs|
  {
    if cs == [] then Some([])
    else
      var m := MatchSegment(cs[0], parts[0]);
      var rest := MatchParts(cs[1..], parts[1..]);
      if m.None? || rest.None? then None
      else Some((if m.value.Some? then [m.value.value] else []) + rest.value)
  }

  /** `path.match(new RegExp("^" + compiled + "$"))`: the captured groups,
      or None. Parameters cannot match a '/', so the path's slashes must
      line up with the template's. */
  function Captures(template: string, path: string): Option<seq<string>>
  {
    var cs := Pattern(template);
    var parts := Split(path);
    if |cs| != |parts| then None else MatchParts(cs, parts)
  }

  /** The path segments a compiled template stands for once each
      parameter is given a value. */
  function Fill(cs: seq<Segment>, values: seq<string>): (parts: seq<string>)
    requires |values| == |ParamNames(cs)|
    ensures |parts| == |cs|
    decreases |cs|
  {
    if cs == [] then []
    else if cs[0].param.Some? then [cs[0].prefix + values[0]] + Fill(cs[1..], values[1..])
    else [cs[0].prefix] + Fill(cs[1..], values)
  }

  /** Values a parameter can capture: non-empty and free of '/'. */
  predicate Capturable(values: seq<string>)
  {
    forall i :: 0 <= i < |values| ==> values[i] != "" && '/' !in values[i]
  }

  /** No segment of a compiled path template holds a '/'. */
  predicate SlashFree(cs: seq<Segment>)
  {
    forall i :: 0 <= i < |cs| ==> '/' !in cs[i].prefix
  }

  lemma PatternSlashFree(template: string)
    ensures SlashFree(Pattern(template))
  {
    var cs := Pattern(template);
    forall i | 0 <= i < |cs|
      ensures '/' !in cs[i].prefix
    {
      var seg := Split(template)[i];
      if cs[i].param.Some? {
        assert seg == cs[i].prefix + ":" + cs[i].param.value;
        assert forall j :: 0 <= j < |cs[i].prefix| ==> cs[i].prefix[j] == seg[j];
      }
    }
  }

  /** What MatchParts captures are capturable values, one per parameter,
      and filled back in they give the path segments. */
  lemma {:induction false} MatchPartsSound(cs: seq<Segment>, parts: seq<string>)
    requires |cs| == |parts| && forall i :: 0 <= i < |parts| ==> '/' !in parts[i]
    requires MatchParts(cs, parts).Some?
    ensures var caps := MatchParts(cs, parts).value;
            |caps| == |ParamNames(cs)| && Capturable(caps) && Fill(cs, caps) == parts
    decreases |cs|
  {
    if cs != [] {
      var c := cs[0];
      var m := MatchSegment(c, parts[0]);
      MatchPartsSound(cs[1..], parts[1..]);
      var rcaps := MatchParts(cs[1..], parts[1..]).value;
      var caps := MatchParts(cs, parts).value;
      if c.param.Some? {
        var v := m.value.value;
        assert parts[0] == c.prefix + v;
        assert '/' !in v by {
          assert forall j :: 0 <= j < |v| ==> v[j] == parts[0][|c.prefix| + j];
        }
        assert caps == [v] + rcaps && caps[1..] == rcaps;
        assert Fill(cs, caps) == [parts[0]] + parts[1..];
      } else {
        assert caps == rcaps;
        assert Fill(cs, caps) == [parts[0]] + parts[1..];
      }
    }
  }

  /** Filling in capturable values gives segments that are matched with
      exactly those values. */
  lemma {:induction false} MatchPartsComplete(cs: seq<Segment>, values: seq<string>)
    requires |values| == |ParamNames(cs)| && Capturable(values)
    ensures MatchParts(cs, Fill(cs, values)) == Some(values)
    decreases |cs|
  {
    if cs != [] {
      var c := cs[0];
      var parts := Fill(cs, values);
      if c.param.Some? {
        assert Capturable(values[1..]) by {
          forall i | 0 <= i < |values[1..]| ensures values[1..][i] != "" && '/' !in values[1..][i] {
            assert values[1..][i] == values[i + 1];
          }
        }
        MatchPartsComplete(cs[1..], values[1..]);
        assert parts[0] == c.prefix + values[0] && values[0] != "";
        assert parts[0][..|c.prefix|] == c.prefix && parts[0][|c.prefix|..] == values[0];
        assert parts[1..] == Fill(cs[1..], values[1..]);
        assert values == [values[0]] + values[1..];
      } else {
        MatchPartsComplete(cs[1..], values);
        assert parts[0] == c.prefix && MatchSegment(c, parts[0]) == Some(None);
        assert parts[1..] == Fill(cs[1..], values);
        assert [] + values == values;
      }
    }
  }

  /** A template matches a path exactly when the path is the template
      with a capturable value put in for each parameter, and the captures
      are those values: parameters take one non-empty segment each and the
      match covers the whole path. */
  lemma CapturesSpec(template: string, path: string, values: seq<string>)
    ensures var cs := Pattern(template);
            Captures(template, path).Some? ==>
              var caps := Captures(template, path).value;
              |caps| == |ParamNames(cs)| && Capturable(caps) && path == Join(Fill(cs, caps))
    ensures var cs := Pattern(template);
            |values| == |ParamNames(cs)| && Capturable(values) ==>
              Captures(template, Join(Fill(cs, values))) == Some(values)
  {
    var cs := Pattern(template);
    PatternSlashFree(template);
    var parts := Split(path);
    if Captures(template, path).Some? {
      MatchPartsSound(cs, parts);
      JoinSplit(path);
    }
    if |values| == |ParamNames(cs)| && Capturable(values) {
      var filled := Fill(cs, values);
      FillSlashFree(cs, values);
      SplitJoin(filled);
      MatchPartsComplete(cs, values);
    }
  }

  lemma {:induction false} FillSlashFree(cs: seq<Segment>, values: seq<string>)
    requires |values| == |ParamNames(cs)| && SlashFree(cs) && Capturable(values)
    ensures forall i :: 0 <= i < |Fill(cs, values)| ==> '/' !in Fill(cs, values)[i]
    decreases |cs|
  {
    if cs != [] {
      var tail := if cs[0].param.Some? then values[1..] else values;
      assert Capturable(tail) by {
        forall i | 0 <= i < |tail| ensures tail[i] != "" && '/' !in tail[i] {
          if cs[0].param.Some? { assert tail[i] == values[i + 1]; }
        }
      }
      FillSlashFree(cs[1..], tail);
      var f := Fill(cs, values);
      if cs[0].param.Some? {
        assert '/' !in cs[0].prefix + values[0];
      }
      assert forall i :: 1 <= i < |f| ==> f[i] == Fill(cs[1..], tail)[i - 1];
    }
  }

  /** A template without parameters matches exactly the path equal to
      it. */
  lemma LiteralTemplate(template: string, path: string)
    requires ParamNames(Pattern(template)) == []
    ensures Captures(template, path).Some? <==> path == template
  {
    var cs := Pattern(template);
    NoParamsFill(cs, Split(template));
    JoinSplit(template);
    CapturesSpec(template, path, []);
  }

  lemma {:induction false} NoParamsFill(cs: seq<Segment>, parts: seq<string>)
    requires |cs| == |parts| && ParamNames(cs) == []
    requires forall i :: 0 <= i < |cs| ==> cs[i] == Compile(parts[i])
    ensures Fill(cs, []) == parts
    decreases |cs|
  {
    if cs != [] {
      assert cs[0].param.None?;
      NoParamsFill(cs[1..], parts[1..]);
    }
  }

  // ---------------------------------------------------------------------
  // matchRoute and router.

  /** The parameters record built from the names and the captures: each
      name gets the capture at its position, a later duplicate name
      overwriting an earlier one. */
  function ParamsOf(names: seq<string>, caps: seq<string>): map<string, string>
    requires |names| == |caps|
    decreases |names|
  {
    if names == [] then map[]
    else ParamsOf(names[..|names| - 1], caps[..|caps| - 1])[names[|names| - 1] := caps[|caps| - 1]]
  }

  /** Every name is a key, and a name that does not occur again later in
      the list maps to the capture at its own position. */
  lemma {:induction false} ParamsOfSpec(names: seq<string>, caps: seq<string>)
    requires |names| == |caps|
    ensures ParamsOf(names, caps).Keys == set n | n in names
    ensures forall i :: 0 <= i < |names| && (forall j :: i < j < |names| ==> names[j] != names[i]) ==>
              ParamsOf(names, caps)[names[i]] == caps[i]
    decreases |names|
  {
    if names != [] {
      var n := |names| - 1;
      ParamsOfSpec(names[..n], caps[..n]);
      assert forall i :: 0 <= i < n ==> names[..n][i] == names[i];
      assert (set x | x in names) == (set x | x in names[..n]) + {names[n]} by {
        assert names == names[..n] + [names[n]];
      }
    }
  }

  /** The position of the first route whose template matches the path. */
  function FirstMatching(routes: seq<Route>, path: string): (k: Option<nat>)
    ensures k.Some? ==> k.value < |routes| && Captures(routes[k.value].template, path).Some?
                        && forall j :: 0 <= j < k.value ==> Captures(routes[j].template, path).None?
    ensures k.None? ==> forall j :: 0 <= j < |routes| ==> Captures(routes[j].template, path).None?
    decreases |routes|
  {
    if routes == [] then None
    else if Captures(routes[0].template, path).Some? then Some(0)
    else
      var k := FirstMatching(routes[1..], path);
      if k.None? then None else Some(k.value + 1)
  }

  /** The first matching route is the one that matches after none
      before it did; none matches when no route does. */
  lemma {:induction false} FirstMatchingAt(routes: seq<Route>, path: string, i: nat)
    requires i <= |routes| && forall j :: 0 <= j < i ==> Captures(routes[j].template, path).None?
    ensures i < |routes| && Captures(routes[i].template, path).Some? ==> FirstMatching(routes, path) == Some(i)
    ensures i == |routes| ==> FirstMatching(routes, path) == None
    decreases i
  {
    if i > 0 {
      var rest := routes[1..];
      assert forall j :: 0 <= j < i - 1 ==> rest[j] == routes[j + 1];
      FirstMatchingAt(rest, path, i - 1);
      assert Captures(routes[0].template, path).None?;
    }
  }

  // ---------------------------------------------------------------------
  // The order of the route table.

  /** A path of two slash-free segments splits into them. */
  lemma SplitTwo(a: string, b: string)
    requires '/' !in a && '/' !in b
    ensures Split(a + "/" + b) == [a, b]
  {
    SplitCons(a, b);
  }

  /** A template matches only paths with as many segments. */
  lemma SegmentCountMiss(t: string, path: string)
    requires |Split(t)| != |Split(path)|
    ensures Captures(t, path).None?
  {
  }

  /** The first three templates of the route table have fewer segments
      than a checkout path, so they miss it. */
  lemma RootMisses(t: string, path: string)
    requires t == Routes[0].template && |Split(path)| == 4
    ensures Captures(t, path).None?
  {
    SplitTwo("", "");
    assert "" + "/" + "" == t;
    SegmentCountMiss(t, path);
  }

  lemma RestaurantsMisses(t: string, path: string)
    requires t == Routes[1].template && |Split(path)| == 4
    ensures Captures(t, path).None?
  {
    SplitTwo("", "restaurants");
    assert "" + "/" + "restaurants" == t;
    SegmentCountMiss(t, path);
  }

  lemma RestaurantDetailMisses(t: string, path: string)
    requires t == Routes[2].template && |Split(path)| == 4
    ensures Captures(t, path).None?
  {
    assert t == "/restaurants/:id";
    RestaurantDetailSegments(t, ["", "restaurants", ":id"]);
    SegmentCountMiss(t, path);
  }

  lemma RestaurantDetailSegments(t: string, parts: seq<string>)
    requires t == "/restaurants/:id" && parts == ["", "restaurants", ":id"]
    ensures Split(t) == parts
  {
    assert parts[2..][1..] == [] && parts[1..][1..] == parts[2..];
    assert Join(parts[2..]) == ":id";
    assert Join(parts[1..]) == "restaurants/:id";
    assert Join(parts) == t;
    SplitJoin(parts);
  }

  /** The tracking route's template "/order/:id" has three segments, so
      it misses every path of four, checkout paths among them. */
  lemma TrackingMisses(t: string, path: string)
    requires t == Routes[4].template && |Split(path)| == 4
    ensures Captures(t, path).None?
  {
    assert t == "/order/:id";
    TrackingSegments(t, ["", "order", ":id"]);
    SegmentCountMiss(t, path);
  }

  lemma TrackingSegments(t: string, parts: seq<string>)
    requires t == "/order/:id" && parts == ["", "order", ":id"]
    ensures Split(t) == parts
  {
    assert parts[2..][1..] == [] && parts[1..][1..] == parts[2..];
    assert Join(parts[2..]) == ":id";
    assert Join(parts[1..]) == "order/:id";
    assert Join(parts) == t;
    SplitJoin(parts);
  }

  /** The segments of the checkout route's template. */
  lemma CheckoutTemplateSegments(t: string, parts: seq<string>)
    requires t == "/order/checkout/" + ":id" && parts == ["", "order", "checkout", ":id"]
    ensures Split(t) == parts
  {
    assert parts[3..][1..] == [] && parts[2..][1..] == parts[3..] && parts[1..][1..] == parts[2..];
    assert Join(parts[3..]) == ":id";
    assert Join(parts[2..]) == "checkout/:id";
    assert Join(parts[1..]) == "order/checkout/:id";
    assert Join(parts) == t;
    SplitJoin(parts);
  }

  /** The template segment ":id" is the parameter `id` with no literal
      prefix. */
  lemma CompileParamId()
    ensures Compile(":id") == Segment("", Some("id"))
  {
    assert FirstIndex(":id", ':') == 0;
    assert ":id"[..0] == "" && ":id"[1..] == "id";
  }

  /** The checkout route's template, as a prefix and the parameter. */
  lemma CheckoutTemplate(t: string)
    requires t == Routes[3].template
    ensures t == "/order/checkout/" + ":id"
  {
    assert t == "/order/checkout/:id";
  }

  /** The compiled checkout template: three literal segments, then the
      parameter `id`. */
  lemma CheckoutPattern(t: string)
    requires t == "/order/checkout/" + ":id"
    ensures Pattern(t) == [Segment("", None), Segment("order", None), Segment("checkout", None), Segment("", Some("id"))]
  {
    var parts := ["", "order", "checkout", ":id"];
    CheckoutTemplateSegments(t, parts);
    CompileParamId();
    assert ':' !in "order" && ':' !in "checkout";
    var cs := Pattern(t);
    assert cs[0] == Compile("") && cs[1] == Compile("order") && cs[2] == Compile("checkout") && cs[3] == Compile(":id");
  }

  /** The compiled checkout template against the segments of a checkout
      path, one segment at a time. */
  lemma CheckoutMatch(cs: seq<Segment>, parts: seq<string>, id: string)
    requires cs == [Segment("", None), Segment("order", None), Segment("checkout", None), Segment("", Some("id"))]
    requires id != "" && parts == ["", "order", "checkout", id]
    ensures MatchParts(cs, parts) == Some([id])
  {
    assert id[..0] == "" && id[0..] == id;
    assert MatchSegment(cs[3], parts[3]) == Some(Some(id));
    assert cs[3..][0] == cs[3] && parts[3..][0] == parts[3];
    assert cs[3..][1..] == [] && parts[3..][1..] == [] && MatchParts([], []) == Some([]);
    assert [id] + [] == [id];
    assert MatchParts(cs[3..], parts[3..]) == Some([id]);
    assert cs[2] == Segment("checkout", None) && parts[2] == "checkout";
    assert MatchSegment(cs[2], parts[2]) == Some(None);
    assert cs[2..][1..] == cs[3..] && parts[2..][1..] == parts[3..];
    assert cs[2..][0] == cs[2] && parts[2..][0] == parts[2] && [] + [id] == [id];
    assert MatchParts(cs[2..], parts[2..]) == Some([id]);
    assert cs[1] == Segment("order", None) && parts[1] == "order";
    assert MatchSegment(cs[1], parts[1]) == Some(None);
    assert cs[1..][1..] == cs[2..] && parts[1..][1..] == parts[2..];
    assert cs[1..][0] == cs[1] && parts[1..][0] == parts[1] && [] + [id] == [id];
    assert MatchParts(cs[1..], parts[1..]) == Some([id]);
    assert MatchSegment(cs[0], parts[0]) == Some(None);
    assert cs[0..][1..] == cs[1..] && [] + [id] == [id];
  }

  /** The fourth route is the first match when the three before it miss
      and it matches. */
  lemma FourthMatches(routes: seq<Route>, path: string)
    requires |routes| > 3 && Captures(routes[3].template, path).Some?
    requires Captures(routes[0].template, path).None? && Captures(routes[1].template, path).None?
    requires Captures(routes[2].template, path).None?
    ensures FirstMatching(routes, path) == Some(3)
  {
    FirstMatchingAt(routes, path, 3);
  }

  /** Every path "/order/checkout/<id>" (the segments "", "order",
      "checkout" and a non-empty slash-free id, joined by slashes) reaches
      the checkout page, capturing the order id. The order of the two
      order routes does not decide this: the routes before the checkout
      route, and the tracking route "/order/:id" after it, have fewer
      segments than such a path, and a parameter cannot take in a '/'. */
  lemma CheckoutPathRoute(id: string)
    requires id != "" && '/' !in id
    ensures FirstMatching(Routes, Join(["", "order", "checkout", id])) == Some(3)
    ensures Captures(Routes[3].template, Join(["", "order", "checkout", id])) == Some([id])
    ensures Captures(Routes[4].template, Join(["", "order", "checkout", id])).None?
  {
    var parts := ["", "order", "checkout", id];
    var path := Join(parts);
    SplitJoin(parts);
    RootMisses(Routes[0].template, path);
    RestaurantsMisses(Routes[1].template, path);
    RestaurantDetailMisses(Routes[2].template, path);
    CheckoutTemplate(Routes[3].template);
    CheckoutPattern(Routes[3].template);
    CheckoutMatch(Pattern(Routes[3].template), parts, id);
    FourthMatches(Routes, path);
    TrackingMisses(Routes[4].template, path);
  }

  /** The path "/order/checkout/x" is routed to the checkout page, not
      to order tracking. */
  lemma CheckoutExample(path: string)
    requires path == "/order/checkout/x"
    ensures FirstMatching(Routes, path) == Some(3) && Routes[3].page == OrderCheckoutPage
  {
    ExamplePath(path, ["", "order", "checkout", "x"]);
    CheckoutPathRoute("x");
  }

  lemma ExamplePath(path: string, parts: seq<string>)
    requires path == "/order/checkout/x" && parts == ["", "order", "checkout", "x"]
    ensures Join(parts) == path
  {
    assert parts[3..][1..] == [] && parts[2..][1..] == parts[3..] && parts[1..][1..] == parts[2..];
    assert Join(parts[3..]) == "x";
    assert Join(parts[2..]) == "checkout/x";
    assert Join(parts[1..]) == "order/checkout/x";
  }

  datatype RouteMatch = RouteMatch(route: string, params: map<string, string>)

  /** The parameters a template's captures give. */
  function ParamsFor(template: string, caps: seq<string>): map<string, string>
    requires |caps| == |ParamNames(Pattern(template))|
  {
    ParamsOf(ParamNames(Pattern(template)), caps)
  }

  /** The `params[name] = match[i + 1]` loop. */
  method BuildParams(names: seq<string>, caps: seq<string>) returns (params: map<string, string>)
    requires |names| == |caps|
    ensures params == ParamsOf(names, caps)
  {
    params := map[];
    for i := 0 to |names|
      invariant params == ParamsOf(names[..i], caps[..i])
    {
      assert names[..i + 1][..i] == names[..i] && caps[..i + 1][..i] == caps[..i];
      params := params[names[i] := caps[i]];
    }
    assert names[..|names|] == names && caps[..|caps|] == caps;
  }

  /** matchRoute: the routes are tried in order and the first whose
      template matches the whole path is returned with its parameters;
      None when none matches. */
  method MatchRoute(routes: seq<Route>, path: string) returns (r: Option<RouteMatch>)
    ensures var k := FirstMatching(routes, path);
            (r.None? <==> k.None?)
            && (k.Some? ==> var t := routes[k.value].template;
                            var caps := Captures(t, path).value;
                            r.value.route == t && |caps| == |ParamNames(Pattern(t))|
                            && r.value.params == ParamsFor(t, caps))
  {
    for i := 0 to |routes|
      invariant forall j :: 0 <= j < i ==> Captures(routes[j].template, path).None?
    {
      var caps := Captures(routes[i].template, path);
      if caps.Some? {
        CapturesSpec(routes[i].template, path, []);
        FirstMatchingAt(routes, path, i);
        var params := BuildParams(ParamNames(Pattern(routes[i].template)), caps.value);
        return Some(RouteMatch(routes[i].template, params));
      }
    }
    FirstMatchingAt(routes, path, |routes|);
    return None;
  }

  /** router: the page of the first matching route with its parameters,
      or the restaurants page without parameters. (The page is looked up
      by the matched template, which names one route since the table's
      templates are distinct.) */
  method Navigate(path: string) returns (page: Page, params: Option<map<string, string>>)
    ensures var k := FirstMatching(Routes, path);
            (k.None? ==> page == RestaurantsPage && params == None)
            && (k.Some? ==> var t := Routes[k.value].template;
                            var caps := Captures(t, path).value;
                            page == Routes[k.value].page && |caps| == |ParamNames(Pattern(t))|
                            && params == Some(ParamsFor(t, caps)))
  {
    var m := MatchRoute(Routes, path);
    if m.None? {
      return RestaurantsPage, None;
    }
    var k := FirstMatching(Routes, path);
    page := Routes[k.value].page;
    params := Some(m.value.params);
  }
}
