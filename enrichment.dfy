/**
 * Post-processing of the object parsed from the model's reply: the analysed company's
 * URL, attribute dump and website summary are injected, the matched golden partner is
 * looked up by exact name, its fields are copied in, and the leads-per-day placeholder of
 * the sales line is filled in.
 */
module Enrichment {
  import opened Wrappers
  import opened Text
  import opened Json

  const UrlKey := "analyzed_company_url"
  const AttributesKey := "analyzed_company_attributes"
  const SummaryKey := "summary"
  const MatchedNameKey := "matched_partner_name"
  const DescriptionKey := "matched_partner_description"
  const LeadsKey := "avg_leads_per_day"
  const RankKey := "rank"
  const SalesLineKey := "phone_sales_line"

  /** What the model writes when no golden partner fits. */
  const NoMatchSentinel := "No suitable match found"
  /** The token in the sales line that stands for the partner's leads per day. */
  const LeadsPlaceholder := "{programmatic placeholder}"

  /** Every key the enrichment may write. */
  const WrittenKeys: set<string> := {UrlKey, AttributesKey, SummaryKey, DescriptionKey, LeadsKey, RankKey, SalesLineKey}

  /** What the step takes from the analysed company's attributes object: its indented JSON
      text, its plain dump, and its `input_summary_url` (`None` when missing or None). */
  datatype TargetAttributes = TargetAttributes(attributesJson: string, attributes: Dict, inputSummaryUrl: Option<string>)

  lemma DistinctKeys()
    ensures MatchedNameKey !in WrittenKeys
    ensures UrlKey != AttributesKey && UrlKey != SummaryKey && AttributesKey != SummaryKey
    ensures DescriptionKey != LeadsKey && DescriptionKey != RankKey && LeadsKey != RankKey
    ensures SalesLineKey !in {UrlKey, AttributesKey, SummaryKey, DescriptionKey, LeadsKey, RankKey}
    ensures {DescriptionKey, LeadsKey, RankKey} !! {UrlKey, AttributesKey, SummaryKey}
  {
    assert MatchedNameKey[0] != UrlKey[0];
    assert DescriptionKey[0] != AttributesKey[0];
  }

  /** The model named a partner to look up: the name is truthy and not the sentinel. */
  predicate NamesPartner(name: Value) {
    Truthy(name) && name != Str(NoMatchSentinel)
  }

  /** `partner.get('name') == name`. */
  predicate NameMatches(partner: Dict, name: Value) {
    Lookup(partner, "name") == name
  }

  /** The position of the first partner whose name equals `name`, if any. */
  function FirstMatch(partners: seq<Dict>, name: Value): (r: Option<nat>)
    ensures r.Some? ==> r.value < |partners| && NameMatches(partners[r.value], name)
    ensures r.Some? ==> forall j :: 0 <= j < r.value ==> !NameMatches(partners[j], name)
    ensures r.None? <==> forall j :: 0 <= j < |partners| ==> !NameMatches(partners[j], name)
    decreases |partners|
  {
    if partners == [] then None
    else if NameMatches(partners[0], name) then Some(0)
    else
      match FirstMatch(partners[1..], name)
      case None => None
      case Some(k) => Some(k + 1)
  }

  /** The sales line with every placeholder replaced by `str(leads)`. */
  function SubstituteLeads(line: string, leads: Value): string {
    ReplaceAll(line, LeadsPlaceholder, PyStr(leads))
  }

  /** The URL (when known), the attribute dump and a non-empty website summary, written in
      that order. */
  function Injected(parsed: Dict, target: TargetAttributes, summary: Option<string>): Dict {
    var withUrl := if target.inputSummaryUrl.Some? then Update(parsed, UrlKey, Str(target.inputSummaryUrl.value)) else parsed;
    var withAttributes := Update(withUrl, AttributesKey, Obj(target.attributes));
    if summary.Some? && summary.value != "" then Update(withAttributes, SummaryKey, Str(summary.value)) else withAttributes
  }

  /** The partner's summary, leads and rank written under the description, leads and rank keys. */
  function Copied(obj: Dict, partner: Dict): Dict {
    Update(Update(Update(obj, DescriptionKey, Lookup(partner, SummaryKey)), LeadsKey, Lookup(partner, LeadsKey)), RankKey, Lookup(partner, RankKey))
  }

  /** The partner's summary, leads and rank copied in, then the placeholder substitution;
      `None` when the substitution raises because the sales line is truthy but no string. */
  function WithPartner(obj: Dict, partner: Dict): Option<Dict> {
    var leads := Lookup(partner, LeadsKey);
    var copied := Copied(obj, partner);
    var line := Lookup(copied, SalesLineKey);
    if Truthy(line) && leads != Null then
      if line.Str? then Some(Update(copied, SalesLineKey, Str(SubstituteLeads(line.s, leads)))) else None
    else Some(copied)
  }

  /** The partner lookup on an injected object: the first partner with the claimed name, if
      the name is one to look up, supplies its fields. */
  function WithClaimedPartner(obj: Dict, partners: seq<Dict>): Option<Dict> {
    var name := Lookup(obj, MatchedNameKey);
    if !NamesPartner(name) then Some(obj)
    else
      match FirstMatch(partners, name)
      case None => Some(obj)
      case Some(k) => WithPartner(obj, partners[k])
  }

  /** The whole enrichment as a value: `None` when it raises. */
  function Enriched(parsed: Dict, target: TargetAttributes, summary: Option<string>, partners: seq<Dict>): Option<Dict> {
    WithClaimedPartner(Injected(parsed, target, summary), partners)
  }

  /** What the injection writes, and that it leaves every other key alone. */
  lemma InjectedFacts(parsed: Dict, target: TargetAttributes, summary: Option<string>)
    ensures var obj := Injected(parsed, target, summary);
      && Get(obj, AttributesKey) == Some(Obj(target.attributes))
      && Get(obj, UrlKey) == (if target.inputSummaryUrl.Some? then Some(Str(target.inputSummaryUrl.value)) else Get(parsed, UrlKey))
      && Get(obj, SummaryKey) == (if summary.Some? && summary.value != "" then Some(Str(summary.value)) else Get(parsed, SummaryKey))
      && (forall k :: k !in {UrlKey, AttributesKey, SummaryKey} ==> Get(obj, k) == Get(parsed, k))
  {
    DistinctKeys();
    var withUrl := if target.inputSummaryUrl.Some? then Update(parsed, UrlKey, Str(target.inputSummaryUrl.value)) else parsed;
    assert forall k :: k != UrlKey ==> Get(withUrl, k) == Get(parsed, k);
    var withAttributes := Update(withUrl, AttributesKey, Obj(target.attributes));
    assert Get(withAttributes, UrlKey) == Get(withUrl, UrlKey);
    assert forall k :: k !in {UrlKey, AttributesKey} ==> Get(withAttributes, k) == Get(parsed, k);
  }

  /** The injection adds the attribute key, and the URL and summary keys when it writes them. */
  lemma InjectedKeys(parsed: Dict, target: TargetAttributes, summary: Option<string>)
    ensures Keys(Injected(parsed, target, summary)) == Keys(parsed) + {AttributesKey}
      + (if target.inputSummaryUrl.Some? then {UrlKey} else {})
      + (if summary.Some? && summary.value != "" then {SummaryKey} else {})
  {
  }

  lemma CopiedFacts(obj: Dict, partner: Dict)
    ensures var c := Copied(obj, partner);
      && Get(c, DescriptionKey) == Some(Lookup(partner, SummaryKey))
      && Get(c, LeadsKey) == Some(Lookup(partner, LeadsKey))
      && Get(c, RankKey) == Some(Lookup(partner, RankKey))
      && (forall k :: k !in {DescriptionKey, LeadsKey, RankKey} ==> Get(c, k) == Get(obj, k))
  {
    DistinctKeys();
  }

  /** What copying a partner writes, and that it leaves every other key alone. */
  lemma WithPartnerFacts(obj: Dict, partner: Dict)
    ensures var leads := Lookup(partner, LeadsKey);
      var line := Lookup(obj, SalesLineKey);
      && (WithPartner(obj, partner).None? <==> Truthy(line) && leads != Null && !line.Str?)
      && (WithPartner(obj, partner).Some? ==>
        var r := WithPartner(obj, partner).value;
        && Get(r, DescriptionKey) == Some(Lookup(partner, SummaryKey))
        && Get(r, LeadsKey) == Some(leads)
        && Get(r, RankKey) == Some(Lookup(partner, RankKey))
        && Get(r, SalesLineKey) == (if Truthy(line) && leads != Null then Some(Str(SubstituteLeads(line.s, leads))) else Get(obj, SalesLineKey))
        && (forall k :: k !in {DescriptionKey, LeadsKey, RankKey, SalesLineKey} ==> Get(r, k) == Get(obj, k)))
  {
    DistinctKeys();
    var c := Copied(obj, partner);
    CopiedFacts(obj, partner);
    assert Get(c, SalesLineKey) == Get(obj, SalesLineKey);
    var leads := Lookup(partner, LeadsKey);
    var line := Lookup(obj, SalesLineKey);
    if Truthy(line) && leads != Null && line.Str? {
      var r := Update(c, SalesLineKey, Str(SubstituteLeads(line.s, leads)));
      assert WithPartner(obj, partner) == Some(r);
      assert forall k :: k !in {DescriptionKey, LeadsKey, RankKey, SalesLineKey} ==> Get(r, k) == Get(c, k);
    }
  }

  /** The name the model claimed, read from the parsed object: injection never touches it. */
  lemma ClaimedNameKept(parsed: Dict, target: TargetAttributes, summary: Option<string>)
    ensures Lookup(Injected(parsed, target, summary), MatchedNameKey) == Lookup(parsed, MatchedNameKey)
  {
    InjectedFacts(parsed, target, summary);
    DistinctKeys();
  }

  /** The partner lookup writes only the partner-derived keys and the sales line. */
  lemma ClaimedPartnerKeeps(obj: Dict, partners: seq<Dict>, k: string)
    requires WithClaimedPartner(obj, partners).Some?
    requires k !in {DescriptionKey, LeadsKey, RankKey, SalesLineKey}
    ensures Get(WithClaimedPartner(obj, partners).value, k) == Get(obj, k)
  {
    var name := Lookup(obj, MatchedNameKey);
    if NamesPartner(name) && FirstMatch(partners, name).Some? {
      WithPartnerFacts(obj, partners[FirstMatch(partners, name).value]);
    }
  }

  /** The attribute dump is always written; the URL only when the target has one, otherwise
      the model's value stays; the website summary overwrites only when non-empty. */
  lemma EnrichedTargetFields(parsed: Dict, target: TargetAttributes, summary: Option<string>, partners: seq<Dict>)
    requires Enriched(parsed, target, summary, partners).Some?
    ensures var e := Enriched(parsed, target, summary, partners).value;
      && Get(e, AttributesKey) == Some(Obj(target.attributes))
      && Get(e, UrlKey) == (if target.inputSummaryUrl.Some? then Some(Str(target.inputSummaryUrl.value)) else Get(parsed, UrlKey))
      && Get(e, SummaryKey) == (if summary.Some? && summary.value != "" then Some(Str(summary.value)) else Get(parsed, SummaryKey))
  {
    var obj := Injected(parsed, target, summary);
    InjectedFacts(parsed, target, summary);
    DistinctKeys();
    ClaimedPartnerKeeps(obj, partners, AttributesKey);
    ClaimedPartnerKeeps(obj, partners, UrlKey);
    ClaimedPartnerKeeps(obj, partners, SummaryKey);
  }

  /** Every key outside those the enrichment writes keeps the model's value. */
  lemma EnrichedKeepsOtherKeys(parsed: Dict, target: TargetAttributes, summary: Option<string>, partners: seq<Dict>, k: string)
    requires Enriched(parsed, target, summary, partners).Some?
    requires k !in WrittenKeys
    ensures Get(Enriched(parsed, target, summary, partners).value, k) == Get(parsed, k)
  {
    var obj := Injected(parsed, target, summary);
    InjectedFacts(parsed, target, summary);
    assert k !in {UrlKey, AttributesKey, SummaryKey};
    ClaimedPartnerKeeps(obj, partners, k);
  }

  /** A partner is looked up only for a truthy claimed name other than the sentinel. When the
      `k`-th partner is the first whose name equals it, that partner's summary, leads and
      rank are copied in (later partners with the same name play no part), and where leads
      are known and the sales line is truthy every placeholder in it is replaced by the
      leads' text; the step raises only when that sales line is not a string. */
  lemma EnrichedPartnerHit(parsed: Dict, target: TargetAttributes, summary: Option<string>, partners: seq<Dict>, k: nat)
    requires NamesPartner(Lookup(parsed, MatchedNameKey))
    requires k < |partners| && NameMatches(partners[k], Lookup(parsed, MatchedNameKey))
    requires forall j :: 0 <= j < k ==> !NameMatches(partners[j], Lookup(parsed, MatchedNameKey))
    ensures var leads := Lookup(partners[k], LeadsKey);
      var line := Lookup(parsed, SalesLineKey);
      var e := Enriched(parsed, target, summary, partners);
      && (e.None? <==> Truthy(line) && leads != Null && !line.Str?)
      && (e.Some? ==>
        && Get(e.value, DescriptionKey) == Some(Lookup(partners[k], SummaryKey))
        && Get(e.value, LeadsKey) == Some(leads)
        && Get(e.value, RankKey) == Some(Lookup(partners[k], RankKey))
        && Get(e.value, SalesLineKey) == (if Truthy(line) && leads != Null then Some(Str(SubstituteLeads(line.s, leads))) else Get(parsed, SalesLineKey)))
  {
    var obj := Injected(parsed, target, summary);
    ClaimedNameKept(parsed, target, summary);
    InjectedFacts(parsed, target, summary);
    DistinctKeys();
    var name := Lookup(parsed, MatchedNameKey);
    var m := FirstMatch(partners, name);
    assert m == Some(k);
    WithPartnerFacts(obj, partners[k]);
    assert Lookup(obj, SalesLineKey) == Lookup(parsed, SalesLineKey);
  }

  /** With no claimed name, the sentinel, or no partner of that name, the enrichment cannot
      raise and writes no partner-derived key: description, leads, rank and sales line stay
      as the model produced them. */
  lemma EnrichedPartnerMiss(parsed: Dict, target: TargetAttributes, summary: Option<string>, partners: seq<Dict>)
    requires !NamesPartner(Lookup(parsed, MatchedNameKey))
      || forall j :: 0 <= j < |partners| ==> !NameMatches(partners[j], Lookup(parsed, MatchedNameKey))
    ensures Enriched(parsed, target, summary, partners).Some?
    ensures var e := Enriched(parsed, target, summary, partners).value;
      forall key :: key in {DescriptionKey, LeadsKey, RankKey, SalesLineKey} ==> Get(e, key) == Get(parsed, key)
  {
    ClaimedNameKept(parsed, target, summary);
    InjectedFacts(parsed, target, summary);
    DistinctKeys();
  }

  /** A sales line with one placeholder and no other opening brace gets the leads' text in
      exactly that spot. */
  lemma SubstituteLeadsOnce(before: string, after: string, leads: Value)
    requires Lacks(before, '{') && Lacks(after, '{')
    ensures SubstituteLeads(before + LeadsPlaceholder + after, leads) == before + PyStr(leads) + after
  {
    assert LeadsPlaceholder[0] == '{';
    ReplaceSingle(before, LeadsPlaceholder, after, PyStr(leads));
  }

  /** Writing the analysed company's URL, attribute dump and website summary into the object. */
  method InjectTarget(parsed: Dict, target: TargetAttributes, summary: Option<string>) returns (obj: Dict)
    ensures obj == Injected(parsed, target, summary)
  {
    obj := parsed;
    if target.inputSummaryUrl.Some? {
      obj := Update(obj, UrlKey, Str(target.inputSummaryUrl.value));
    }
    obj := Update(obj, AttributesKey, Obj(target.attributes));
    if summary.Some? && summary.value != "" {
      obj := Update(obj, SummaryKey, Str(summary.value));
    }
  }

  /** Copying a matched partner's fields and filling in the sales-line placeholder;
      `None` when `.replace` is called on a sales line that is not a string. */
  method CopyPartner(obj: Dict, partner: Dict) returns (r: Option<Dict>)
    ensures r == WithPartner(obj, partner)
  {
    var o := obj;
    o := Update(o, DescriptionKey, Lookup(partner, SummaryKey));
    o := Update(o, LeadsKey, Lookup(partner, LeadsKey));
    o := Update(o, RankKey, Lookup(partner, RankKey));
    var line := Lookup(o, SalesLineKey);
    var leads := Lookup(partner, LeadsKey);
    if Truthy(line) && leads != Null {
      if !line.Str? {
        return None;
      }
      o := Update(o, SalesLineKey, Str(SubstituteLeads(line.s, leads)));
    }
    return Some(o);
  }

  /** The scan of the partner list for the claimed name, stopping at the first hit. */
  method LookUpPartner(obj: Dict, partners: seq<Dict>) returns (r: Option<Dict>)
    ensures r == WithClaimedPartner(obj, partners)
  {
    r := Some(obj);
    var name := Lookup(obj, MatchedNameKey);
    if NamesPartner(name) {
      var i := 0;
      while i < |partners|
        invariant 0 <= i <= |partners|
        invariant forall j :: 0 <= j < i ==> !NameMatches(partners[j], name)
        invariant r == Some(obj)
      {
        var partner := partners[i];
        if Lookup(partner, "name") == name {
          assert FirstMatch(partners, name) == Some(i);
          r := CopyPartner(obj, partner);
          break;
        }
        i := i + 1;
      }
    }
  }

  /** The enrichment as the step performs it: the parsed object is updated in place and the
      partner list is scanned until the first partner with the claimed name. */
  method Enrich(parsed: Dict, target: TargetAttributes, summary: Option<string>, partners: seq<Dict>) returns (r: Option<Dict>)
    ensures r == Enriched(parsed, target, summary, partners)
  {
    var obj := InjectTarget(parsed, target, summary);
    r := LookUpPartner(obj, partners);
  }
}
