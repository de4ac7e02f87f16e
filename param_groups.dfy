/** `get_grouped_params` and its `apply_decay` predicate: the split of the
    model's named parameters into a weight-decay group and a no-decay group. */
module ParamGroups {
  import opened Strings

  /** One entry of `model.named_parameters()`; `P` stands for the tensor handle. */
  datatype NamedParameter<P> = NamedParameter(name: string, param: P)

  /** One optimizer parameter group: `{"params": ..., "weight_decay": ...}`. */
  datatype ParamGroup<P> = ParamGroup(params: seq<P>, weightDecay: real)

  const GatedCrossAttn := "gated_cross_attn_layer"
  const FfGate := "ff_gate"
  const AttnGate := "attn_gate"
  const Norm := "norm"
  const Bias := "bias"

  /** `apply_decay(name)`: five substring tests on the parameter's name. */
  predicate ApplyDecay(name: string) {
    Contains(name, GatedCrossAttn)
    && !Contains(name, FfGate)
    && !Contains(name, AttnGate)
    && !Contains(name, Norm)
    && !Contains(name, Bias)
  }

  /** The handles of `ps`, in order. */
  function Handles<P>(ps: seq<NamedParameter<P>>): (r: seq<P>)
    ensures |r| == |ps| && forall i :: 0 <= i < |ps| ==> r[i] == ps[i].param
    decreases |ps|
  {
    if |ps| == 0 then [] else Handles(ps[..|ps| - 1]) + [ps[|ps| - 1].param]
  }

  /** The handles of the entries whose `apply_decay` verdict is `decay`, in
      `named_parameters` order. */
  function Members<P>(ps: seq<NamedParameter<P>>, decay: bool): seq<P>
    decreases |ps|
  {
    if |ps| == 0 then []
    else
      var last := ps[|ps| - 1];
      Members(ps[..|ps| - 1], decay) + (if ApplyDecay(last.name) == decay then [last.param] else [])
  }

  /** The two groups `get_grouped_params` returns, in its order. */
  function Groups<P>(ps: seq<NamedParameter<P>>, weightDecay: real): seq<ParamGroup<P>> {
    [ParamGroup(Members(ps, true), weightDecay), ParamGroup(Members(ps, false), 0.0)]
  }

  /** `get_grouped_params`: one pass over the named parameters, appending each
      handle to the list its name selects. */
  method GetGroupedParams<P>(named: seq<NamedParameter<P>>, weightDecay: real)
    returns (groups: seq<ParamGroup<P>>)
    ensures |groups| == 2
    ensures groups[0] == ParamGroup(Members(named, true), weightDecay)
    ensures groups[1] == ParamGroup(Members(named, false), 0.0)
  {
    var withWd: seq<P> := [];
    var withoutWd: seq<P> := [];
    for i := 0 to |named|
      invariant withWd == Members(named[..i], true)
      invariant withoutWd == Members(named[..i], false)
    {
      assert named[..i + 1][..i] == named[..i];
      if ApplyDecay(named[i].name) {
        withWd := withWd + [named[i].param];
      } else {
        withoutWd := withoutWd + [named[i].param];
      }
    }
    assert named[..|named|] == named;
    groups := [ParamGroup(withWd, weightDecay), ParamGroup(withoutWd, 0.0)];
  }

  /** Grouping a concatenation groups each part and keeps their order: each
      group lists its members in `named_parameters` order. */
  lemma {:induction false} MembersOfConcat<P>(a: seq<NamedParameter<P>>, b: seq<NamedParameter<P>>, decay: bool)
    ensures Members(a + b, decay) == Members(a, decay) + Members(b, decay)
    decreases |b|
  {
    if |b| == 0 {
      assert a + b == a;
    } else {
      var b' := b[..|b| - 1];
      assert (a + b)[..|a + b| - 1] == a + b';
      MembersOfConcat(a, b', decay);
    }
  }

  /** Every parameter lands in exactly one of the two groups: together they
      hold each handle as often as `named_parameters` does. */
  lemma {:induction false} GroupsPartition<P>(ps: seq<NamedParameter<P>>)
    ensures multiset(Members(ps, true)) + multiset(Members(ps, false)) == multiset(Handles(ps))
    decreases |ps|
  {
    if |ps| > 0 {
      GroupsPartition(ps[..|ps| - 1]);
    }
  }

  /** A group holds only handles whose names select it. */
  lemma {:induction false} MembersAreSelected<P>(ps: seq<NamedParameter<P>>, decay: bool, x: P)
    requires x in Members(ps, decay)
    ensures exists i :: 0 <= i < |ps| && ps[i].param == x && ApplyDecay(ps[i].name) == decay
    decreases |ps|
  {
    var init := ps[..|ps| - 1];
    if x in Members(init, decay) {
      MembersAreSelected(init, decay, x);
      var i :| 0 <= i < |init| && init[i].param == x && ApplyDecay(init[i].name) == decay;
      assert ps[i] == init[i];
    } else {
      assert ps[|ps| - 1].param == x && ApplyDecay(ps[|ps| - 1].name) == decay;
    }
  }

  /** Every handle whose name selects a group is in that group. */
  lemma {:induction false} SelectedAreMembers<P>(ps: seq<NamedParameter<P>>, decay: bool, i: int)
    requires 0 <= i < |ps| && ApplyDecay(ps[i].name) == decay
    ensures ps[i].param in Members(ps, decay)
    decreases |ps|
  {
    if i < |ps| - 1 {
      var init := ps[..|ps| - 1];
      assert init[i] == ps[i];
      SelectedAreMembers(init, decay, i);
    }
  }

  /** Five typical parameter names, each its own handle. */
  function ExampleParameters(): seq<NamedParameter<string>> {
    [NamedParameter("gated_cross_attn_layer.ff_gate", "gated_cross_attn_layer.ff_gate"),
     NamedParameter("gated_cross_attn_layer.attn.qkv", "gated_cross_attn_layer.attn.qkv"),
     NamedParameter("gated_cross_attn_layer.norm.weight", "gated_cross_attn_layer.norm.weight"),
     NamedParameter("backbone.layer3.bias", "backbone.layer3.bias"),
     NamedParameter("gated_cross_attn_layer.attn_gate", "gated_cross_attn_layer.attn_gate")]
  }

  // The characters that rule out each marker in the example names, each
  // checked on its own against the literal.
  lemma ProjectionLacksF()
    ensures 'f' !in "gated_cross_attn_layer.attn.qkv"
  {
  }

  lemma ProjectionLacksLateG()
    ensures 'g' !in "gated_cross_attn_layer.attn.qkv"[5..]
  {
  }

  lemma ProjectionLacksLateM()
    ensures 'm' !in "gated_cross_attn_layer.attn.qkv"[3..]
  {
  }

  lemma ProjectionLacksB()
    ensures 'b' !in "gated_cross_attn_layer.attn.qkv"
  {
  }

  lemma BackboneLacksG()
    ensures 'g' !in "backbone.layer3.bias"
  {
  }

  /** The verdict of `apply_decay` on each of the five names. */
  lemma ExampleVerdicts()
    ensures !ApplyDecay("gated_cross_attn_layer.ff_gate")
    ensures ApplyDecay("gated_cross_attn_layer.attn.qkv")
    ensures !ApplyDecay("gated_cross_attn_layer.norm.weight")
    ensures !ApplyDecay("backbone.layer3.bias")
    ensures !ApplyDecay("gated_cross_attn_layer.attn_gate")
  {
    // each excluded name contains its marker ...
    OccurrenceFound("gated_cross_attn_layer.ff_gate", FfGate, 23);
    OccurrenceFound("gated_cross_attn_layer.norm.weight", Norm, 23);
    OccurrenceFound("gated_cross_attn_layer.attn_gate", AttnGate, 23);
    // ... the backbone bias lies outside the cross-attention layers ...
    BackboneLacksG();
    MissingCharacter("backbone.layer3.bias", GatedCrossAttn, 0);
    // ... and the projection contains the marker and none of the exclusions
    OccurrenceFound("gated_cross_attn_layer.attn.qkv", GatedCrossAttn, 0);
    ProjectionLacksF();
    ProjectionLacksLateG();
    ProjectionLacksLateM();
    ProjectionLacksB();
    MissingCharacter("gated_cross_attn_layer.attn.qkv", FfGate, 0);
    MissingCharacter("gated_cross_attn_layer.attn.qkv", AttnGate, 5);
    MissingCharacter("gated_cross_attn_layer.attn.qkv", Norm, 3);
    MissingCharacter("gated_cross_attn_layer.attn.qkv", Bias, 0);
  }

  /** The group of one parameter: its handle if its name selects the group. */
  function Selected<P>(p: NamedParameter<P>, decay: bool): seq<P> {
    if ApplyDecay(p.name) == decay then [p.param] else []
  }

  /** A five-entry listing is grouped entry by entry. */
  lemma MembersOfFive<P>(p0: NamedParameter<P>, p1: NamedParameter<P>, p2: NamedParameter<P>,
                         p3: NamedParameter<P>, p4: NamedParameter<P>, decay: bool)
    ensures Members([p0, p1, p2, p3, p4], decay)
      == Selected(p0, decay) + Selected(p1, decay) + Selected(p2, decay) + Selected(p3, decay) + Selected(p4, decay)
  {
    var s1, s2, s3, s4, s5 := [p0], [p0, p1], [p0, p1, p2], [p0, p1, p2, p3], [p0, p1, p2, p3, p4];
    assert s5[..4] == s4 && s4[..3] == s3 && s3[..2] == s2 && s2[..1] == s1 && s1[..0] == [];
    assert Members(s1, decay) == Selected(p0, decay);
    assert Members(s2, decay) == Members(s1, decay) + Selected(p1, decay);
    assert Members(s3, decay) == Members(s2, decay) + Selected(p2, decay);
    assert Members(s4, decay) == Members(s3, decay) + Selected(p3, decay);
    assert Members(s5, decay) == Members(s4, decay) + Selected(p4, decay);
  }

  /** Of the five names only the cross-attention projection decays; gates,
      norms and biases, and everything outside the cross-attention layers,
      do not. */
  lemma ExampleClassification()
    ensures Groups(ExampleParameters(), 0.1)[0].params == ["gated_cross_attn_layer.attn.qkv"]
    ensures Groups(ExampleParameters(), 0.1)[1].params ==
      ["gated_cross_attn_layer.ff_gate", "gated_cross_attn_layer.norm.weight",
       "backbone.layer3.bias", "gated_cross_attn_layer.attn_gate"]
  {
    ExampleVerdicts();
    var ps := ExampleParameters();
    MembersOfFive(ps[0], ps[1], ps[2], ps[3], ps[4], true);
    MembersOfFive(ps[0], ps[1], ps[2], ps[3], ps[4], false);
    assert [ps[0], ps[1], ps[2], ps[3], ps[4]] == ps;
  }

  /** `norm` is a substring test, so a layer-norm weight is exempt too. */
  lemma LayerNormIsExempt()
    ensures !ApplyDecay("gated_cross_attn_layer.layernorm.weight")
  {
    OccurrenceFound("gated_cross_attn_layer.layernorm.weight", Norm, 28);
  }
}
