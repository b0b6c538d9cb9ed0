/**
 * The appliance icon: the appliance type text, with the marketing prefixes
 * 全自動 ("fully automatic") and 液晶 ("LCD") removed once each, is classified
 * by keyword, the first matching rule choosing the icon.
 */
module ApplianceIcon {
  import opened Js
  import opened Text

  /** The icons drawn; `Generic` is the fallback. */
  datatype Kind = AirConditioner | Washer | Television | Refrigerator | Microwave | Vacuum | Generic

  datatype Rule = Rule(keyword: string, kind: Kind)

  /** The keyword rules in the order they are tried. */
  const Rules: seq<Rule> := [
    Rule("エアコン", AirConditioner),
    Rule("洗濯機", Washer),
    Rule("テレビ", Television),
    Rule("冷蔵庫", Refrigerator),
    Rule("レンジ", Microwave),
    Rule("掃除機", Vacuum)
  ]

  /** `type.replace('全自動', '').replace('液晶', '')`. */
  function Stripped(applianceType: string): string {
    ReplaceFirst(ReplaceFirst(applianceType, "全自動", ""), "液晶", "")
  }

  /** The first rule whose keyword occurs in `t`. */
  function FirstRule(rules: seq<Rule>, t: string): (r: Option<nat>)
    ensures r.Some? ==> r.value < |rules| && Includes(t, rules[r.value].keyword)
    ensures r.Some? ==> forall j :: 0 <= j < r.value ==> !Includes(t, rules[j].keyword)
    ensures r.None? ==> forall j :: 0 <= j < |rules| ==> !Includes(t, rules[j].keyword)
  {
    if rules == [] then None
    else if Includes(t, rules[0].keyword) then Some(0)
    else
      match FirstRule(rules[1..], t)
      case None => None
      case Some(k) => Some(k + 1)
  }

  /** The chain of `includes` tests with early returns, as the component writes it. */
  function KindOf(t: string): Kind {
    if Includes(t, "エアコン") then AirConditioner
    else if Includes(t, "洗濯機") then Washer
    else if Includes(t, "テレビ") then Television
    else if Includes(t, "冷蔵庫") then Refrigerator
    else if Includes(t, "電子レンジ") || Includes(t, "レンジ") then Microwave
    else if Includes(t, "掃除機") then Vacuum
    else Generic
  }

  /** The icon for an appliance type. */
  function Classify(applianceType: string): Kind {
    KindOf(Stripped(applianceType))
  }

  /** The `電子レンジ` test adds nothing: every text containing it contains `レンジ`. */
  lemma MicrowaveTestSubsumed(t: string)
    ensures Includes(t, "電子レンジ") || Includes(t, "レンジ") <==> Includes(t, "レンジ")
  {
    if Includes(t, "電子レンジ") {
      assert OccursAt("電子レンジ", "レンジ", 2);
      IncludesIffOccurs("電子レンジ", "レンジ");
      IncludesTransitive(t, "電子レンジ", "レンジ");
    }
  }

  /**
   * The chain is the ordered rule list: the icon is the kind of the first
   * rule whose keyword occurs, and the fallback exactly when none occurs.
   */
  lemma KindOfIsFirstRule(t: string)
    ensures KindOf(t) == match FirstRule(Rules, t) case Some(i) => Rules[i].kind case None => Generic
    ensures KindOf(t) == Generic <==> forall j :: 0 <= j < |Rules| ==> !Includes(t, Rules[j].keyword)
  {
    MicrowaveTestSubsumed(t);
    var r := FirstRule(Rules, t);
    if r.Some? {
      var i := r.value;
      if i >= 1 { assert !Includes(t, Rules[0].keyword); }
      if i >= 2 { assert !Includes(t, Rules[1].keyword); }
      if i >= 3 { assert !Includes(t, Rules[2].keyword); }
      if i >= 4 { assert !Includes(t, Rules[3].keyword); }
      if i >= 5 { assert !Includes(t, Rules[4].keyword); }
    } else {
      assert !Includes(t, Rules[0].keyword) && !Includes(t, Rules[1].keyword) && !Includes(t, Rules[2].keyword);
      assert !Includes(t, Rules[3].keyword) && !Includes(t, Rules[4].keyword) && !Includes(t, Rules[5].keyword);
    }
  }

  /** A pattern whose first character does not occur is not found. */
  lemma NotFound(s: string, pat: string)
    requires |pat| > 0 && pat[0] !in s
    ensures IndexOf(s, pat) == None && ReplaceFirst(s, pat, "") == s
  {
  }

  /** The documented cases: the prefixes are removed before matching. */
  lemma WasherExample()
    ensures Classify("全自動洗濯機") == Washer
  {
    assert StartsWith("全自動洗濯機", "全自動");
    assert ReplaceFirst("全自動洗濯機", "全自動", "") == "洗濯機";
    NotFound("洗濯機", "液晶");
    NotFound("洗濯機", "エアコン");
    assert StartsWith("洗濯機", "洗濯機");
  }

  lemma TelevisionExample()
    ensures Classify("液晶テレビ") == Television
  {
    NotFound("液晶テレビ", "全自動");
    assert StartsWith("液晶テレビ", "液晶");
    assert ReplaceFirst("液晶テレビ", "液晶", "") == "テレビ";
    NotFound("テレビ", "エアコン");
    NotFound("テレビ", "洗濯機");
    assert StartsWith("テレビ", "テレビ");
  }

  /** A type matching no keyword gets the fallback icon. */
  lemma GenericExample()
    ensures Classify("ドライヤー") == Generic
  {
    NoKeyword("ドライヤー");
  }

  /**
   * A type in which neither prefix nor any keyword can start is classified
   * as written, and gets the fallback icon.
   */
  lemma NoKeyword(t: string)
    requires '全' !in t && '液' !in t
    requires 'エ' !in t && '洗' !in t && 'テ' !in t && '冷' !in t && '電' !in t && 'レ' !in t && '掃' !in t
    ensures Stripped(t) == t && Classify(t) == Generic
  {
    NotFound(t, "全自動");
    NotFound(t, "液晶");
    NotFound(t, "エアコン");
    NotFound(t, "洗濯機");
    NotFound(t, "テレビ");
    NotFound(t, "冷蔵庫");
    NotFound(t, "電子レンジ");
    NotFound(t, "レンジ");
    NotFound(t, "掃除機");
  }
}
