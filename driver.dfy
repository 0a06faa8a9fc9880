/**
 * The configuration plumbing of render_video.py: which splits are rendered,
 * the background colour, copying the configuration sections onto parameter
 * objects, and the command-line defaults for the model path and iteration.
 */
module Driver {
  import opened Wrappers

  /** Python truthiness of an optional string argument: `None` and `''` are false. */
  predicate Truthy(o: Option<string>)
  {
    o.Some? && o.value != ""
  }

  /** `os.path.basename`: the text after the last `/`. */
  function Basename(p: string): (r: string)
    ensures '/' !in r
    ensures |r| <= |p| && r == p[|p| - |r|..]
    ensures |r| < |p| ==> p[|p| - |r| - 1] == '/'
  {
    if |p| == 0 || p[|p| - 1] == '/' then "" else Basename(p[..|p| - 1]) + [p[|p| - 1]]
  }

  /** `s.split('.')[0]`: the text before the first `.`, or all of `s` when it has none. */
  function BeforeFirstDot(s: string): (r: string)
    ensures '.' !in r
    ensures |r| <= |s| && r == s[..|r|]
    ensures |r| < |s| ==> s[|r|] == '.'
  {
    if |s| == 0 || s[0] == '.' then "" else [s[0]] + BeforeFirstDot(s[1..])
  }

  /** One `render_set` call: the name of the output folder and the cameras it sweeps. */
  datatype RenderJob<V> = RenderJob(name: string, views: seq<V>)

  /**
   * The split selection of `render_sets`. A truthy `custom_test` renders one
   * set named after its basename over the training cameras followed by the
   * test cameras, whatever the skip flags say; otherwise "train" unless
   * skipped, then "test" unless skipped.
   */
  function SplitPlan<V>(customTest: Option<string>, skipTrain: bool, skipTest: bool,
                        train: seq<V>, test: seq<V>): (jobs: seq<RenderJob<V>>)
    ensures Truthy(customTest) ==>
      |jobs| == 1 && jobs[0].name == Basename(customTest.value) && jobs[0].views == train + test
    ensures !Truthy(customTest) ==>
      && |jobs| == (if skipTrain then 0 else 1) + (if skipTest then 0 else 1)
      && (forall j :: 0 <= j < |jobs| ==>
            (jobs[j].name == "train" && jobs[j].views == train) ||
            (jobs[j].name == "test" && jobs[j].views == test))
      && (!skipTrain <==> |jobs| > 0 && jobs[0].name == "train")
      && (!skipTest <==> |jobs| > 0 && jobs[|jobs| - 1].name == "test")
  {
    if Truthy(customTest) then
      [RenderJob(Basename(customTest.value), train + test)]
    else
      (if !skipTrain then [RenderJob("train", train)] else []) +
      (if !skipTest then [RenderJob("test", test)] else [])
  }

  /** With a custom test path the skip flags have no effect. */
  lemma CustomTestIgnoresSkips<V>(customTest: Option<string>, skipTrain: bool, skipTest: bool,
                                  train: seq<V>, test: seq<V>)
    requires Truthy(customTest)
    ensures SplitPlan(customTest, skipTrain, skipTest, train, test) ==
            SplitPlan(customTest, false, false, train, test)
  {
    var a := SplitPlan(customTest, skipTrain, skipTest, train, test);
    var b := SplitPlan(customTest, false, false, train, test);
    assert a[0] == b[0];
  }

  /** `[1,1,1]` if `white_background` else `[0,0,0]`: an RGB colour. */
  function Background(white: bool): (c: seq<real>)
    ensures |c| == 3
    ensures forall i :: 0 <= i < 3 ==> (c[i] == 1.0 <==> white) && (c[i] == 0.0 <==> !white)
  {
    var v := if white then 1.0 else 0.0;
    [v, v, v]
  }

  /** A value of a YAML configuration file. */
  datatype Value =
    | Null
    | Bool(b: bool)
    | Int(i: int)
    | Real(r: real)
    | Str(s: string)
    | List(items: seq<Value>)
    | Dict(entries: seq<(string, Value)>)

  /**
   * The attributes an object holds after `setattr(obj, name, value)` for each
   * item in order, starting from none: later items overwrite earlier ones.
   */
  function ToMap(items: seq<(string, Value)>): map<string, Value>
  {
    if |items| == 0 then map[]
    else ToMap(items[..|items| - 1])[items[|items| - 1].0 := items[|items| - 1].1]
  }

  /** Item `i` is the last one named `k`. */
  predicate LastNamed(items: seq<(string, Value)>, k: string, i: int)
  {
    0 <= i < |items| && items[i].0 == k && forall j :: i < j < |items| ==> items[j].0 != k
  }

  /** An attribute is set exactly when some item carries its name. */
  lemma {:induction false} ToMapHas(items: seq<(string, Value)>, k: string)
    ensures k in ToMap(items) <==> exists i :: 0 <= i < |items| && items[i].0 == k
  {
    if |items| > 0 {
      var front := items[..|items| - 1];
      ToMapHas(front, k);
      if exists i :: 0 <= i < |items| && items[i].0 == k {
        var i :| 0 <= i < |items| && items[i].0 == k;
        if i < |front| {
          assert front[i].0 == k;
        }
      }
      if exists i :: 0 <= i < |front| && front[i].0 == k {
        var i :| 0 <= i < |front| && front[i].0 == k;
        assert items[i].0 == k;
      }
    }
  }

  /** A set attribute holds the value of the last item with its name. */
  lemma {:induction false} ToMapLast(items: seq<(string, Value)>, k: string) returns (i: nat)
    requires k in ToMap(items)
    ensures LastNamed(items, k, i) && ToMap(items)[k] == items[i].1
  {
    var front := items[..|items| - 1];
    if items[|items| - 1].0 == k {
      i := |items| - 1;
    } else {
      i := ToMapLast(front, k);
      assert items[i] == front[i];
    }
  }

  /** A configuration section given as keys with distinct names: each attribute is its key's value. */
  lemma ToMapDistinct(items: seq<(string, Value)>, i: nat)
    requires forall j, k :: 0 <= j < k < |items| ==> items[j].0 != items[k].0
    requires i < |items|
    ensures items[i].0 in ToMap(items) && ToMap(items)[items[i].0] == items[i].1
  {
    ToMapHas(items, items[i].0);
    var i' := ToMapLast(items, items[i].0);
    assert i' == i;
  }

  /** `GroupParams`: an attribute bag, filled by `setattr`. */
  class GroupParams {
    var attrs: map<string, Value>

    constructor ()
      ensures attrs == map[]
    {
      attrs := map[];
    }

    /** `setattr(self, name, value)` */
    method SetAttr(name: string, value: Value)
      modifies this
      ensures attrs == old(attrs)[name := value]
    {
      attrs := attrs[name := value];
    }

    /**
     * `if lp.model_path == '': lp.model_path = args.model_path`. Reading a
     * missing attribute raises, reported as `false`.
     */
    method FillModelPath(argsPath: string) returns (ok: bool)
      modifies this
      ensures ok <==> "model_path" in old(attrs)
      ensures attrs == if ok && old(attrs)["model_path"] == Str("")
                       then old(attrs)["model_path" := Str(argsPath)]
                       else old(attrs)
    {
      ok := "model_path" in attrs;
      if ok && attrs["model_path"] == Str("") {
        attrs := attrs["model_path" := Str(argsPath)];
      }
    }
  }

  /** `for arg in section.items(): setattr(g, arg[0], arg[1])` on a fresh object. */
  method CopyItems(g: GroupParams, items: seq<(string, Value)>)
    requires g.attrs == map[]
    modifies g
    ensures g.attrs == ToMap(items)
  {
    for i := 0 to |items|
      invariant g.attrs == ToMap(items[..i])
    {
      g.SetAttr(items[i].0, items[i].1);
      assert items[..i + 1][..i] == items[..i];
    }
    assert items[..|items|] == items;
  }

  /** The three parameter objects `parse_cfg` returns. */
  datatype ParamSets = ParamSets(lp: GroupParams, op: GroupParams, pp: GroupParams)

  /** A YAML document: top-level keys and the items of each section. */
  type Config = map<string, seq<(string, Value)>>

  /**
   * `parse_cfg`: `lp`, `op` and `pp` receive the items of `model_params`,
   * `optim_params` and `pipeline_params`; a missing section raises `KeyError`.
   */
  method ParseCfg(cfg: Config) returns (r: Result<ParamSets>)
    ensures r.Ok? <==> "model_params" in cfg && "optim_params" in cfg && "pipeline_params" in cfg
    ensures r.Ok? ==> fresh(r.value.lp) && fresh(r.value.op) && fresh(r.value.pp)
    ensures r.Ok? ==> r.value.lp != r.value.op && r.value.op != r.value.pp && r.value.lp != r.value.pp
    ensures r.Ok? ==> r.value.lp.attrs == ToMap(cfg["model_params"])
    ensures r.Ok? ==> r.value.op.attrs == ToMap(cfg["optim_params"])
    ensures r.Ok? ==> r.value.pp.attrs == ToMap(cfg["pipeline_params"])
  {
    var lp := new GroupParams();
    var op := new GroupParams();
    var pp := new GroupParams();
    if "model_params" !in cfg {
      return Err("KeyError: 'model_params'");
    }
    CopyItems(lp, cfg["model_params"]);
    if "optim_params" !in cfg {
      return Err("KeyError: 'optim_params'");
    }
    CopyItems(op, cfg["optim_params"]);
    if "pipeline_params" !in cfg {
      return Err("KeyError: 'pipeline_params'");
    }
    CopyItems(pp, cfg["pipeline_params"]);
    r := Ok(ParamSets(lp, op, pp));
  }

  /** `os.path.join('output', os.path.basename(config).split('.')[0])` */
  function DefaultModelPath(config: string): (r: string)
    ensures "output/" <= r
    ensures '/' !in r[7..] && '.' !in r[7..]
    ensures r[7..] <= Basename(config)
    ensures |r| - 7 < |Basename(config)| ==> Basename(config)[|r| - 7] == '.'
  {
    var stem := BeforeFirstDot(Basename(config));
    assert ("output/" + stem)[7..] == stem;
    "output/" + stem
  }

  /** The command-line arguments the defaults act on. */
  datatype Args = Args(config: Option<string>, modelPath: Option<string>, loadVq: bool, iteration: Option<int>)

  /**
   * The defaults of `__main__`: a missing model path is derived from the
   * config path (`basename(None)` raises when there is none either), and
   * `--load_vq` discards the iteration.
   */
  function ResolveArgs(a: Args): (r: Result<Args>)
    ensures r.Ok? <==> a.modelPath.Some? || a.config.Some?
    ensures r.Ok? ==> r.value.config == a.config && r.value.loadVq == a.loadVq
    ensures r.Ok? ==> r.value.modelPath.Some?
    ensures r.Ok? && a.modelPath.Some? ==> r.value.modelPath == a.modelPath
    ensures r.Ok? && a.modelPath.None? ==> r.value.modelPath == Some(DefaultModelPath(a.config.value))
    ensures r.Ok? ==> (r.value.iteration.None? <==> a.loadVq || a.iteration.None?)
    ensures r.Ok? && !a.loadVq ==> r.value.iteration == a.iteration
  {
    if a.modelPath.None? && a.config.None? then
      Err("TypeError: expected str, bytes or os.PathLike object, not NoneType")
    else
      var path := if a.modelPath.Some? then a.modelPath.value else DefaultModelPath(a.config.value);
      Ok(Args(a.config, Some(path), a.loadVq, if a.loadVq then None else a.iteration))
  }
}
