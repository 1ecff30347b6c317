/**
 * Compiling the comparison prompt: the target's attribute JSON and a numbered list
 * of the golden-partner summaries are substituted for two placeholders of the template.
 */
module Prompt {
  import opened Text
  import opened Json

  const AttributesPlaceholder := "{{TARGET_COMPANY_ATTRIBUTES_JSON_PLACEHOLDER}}"
  const PartnersPlaceholder := "{{GOLDEN_PARTNER_SUMMARIES_PLACEHOLDER}}"

  /** The `i`-th (0-based) list entry: its 1-based number, a dot, a space, the partner as JSON. */
  function NumberedLine(i: nat, partner: Dict): string {
    IntText(i + 1) + ". " + Dumps(Obj(partner))
  }

  /** One numbered line per partner, in order, joined by newlines with none at the end. */
  function PartnerList(partners: seq<Dict>): string {
    Join(seq(|partners|, i requires 0 <= i < |partners| => NumberedLine(i, partners[i])), "\n")
  }

  /** The template with every attributes placeholder replaced first, and then every partner
      placeholder replaced in that result. */
  function FormatPrompt(template: string, attributesJson: string, partners: seq<Dict>): string {
    ReplaceAll(ReplaceAll(template, AttributesPlaceholder, attributesJson), PartnersPlaceholder, PartnerList(partners))
  }

  lemma NumberedLineSingle(i: nat, partner: Dict)
    ensures Lacks(NumberedLine(i, partner), '\n')
  {
    var d := IntText(i + 1);
    assert AllDigits(d);
    var j := Dumps(Obj(partner));
    assert Printable(j);
    var s := d + ". " + j;
    forall k | 0 <= k < |s| ensures s[k] != '\n' {
      if k < |d| { assert s[k] == d[k]; }
      else if k >= |d| + 2 { assert s[k] == j[k - |d| - 2]; }
    }
  }

  /** Splitting a non-empty partner list at its newlines yields exactly the numbered
      lines: the `i`-th is `"{i+1}. "` followed by json.dumps of the `i`-th partner. */
  lemma PartnerListLines(partners: seq<Dict>)
    requires |partners| > 0
    ensures Split(PartnerList(partners), '\n') == seq(|partners|, i requires 0 <= i < |partners| => NumberedLine(i, partners[i]))
  {
    var lines := seq(|partners|, i requires 0 <= i < |partners| => NumberedLine(i, partners[i]));
    forall i | 0 <= i < |lines| ensures Lacks(lines[i], '\n') {
      NumberedLineSingle(i, partners[i]);
    }
    SplitJoin(lines, '\n');
  }

  /** The list is empty exactly when there are no partners, and it never ends in a newline. */
  lemma {:induction false} PartnerListShape(partners: seq<Dict>)
    ensures PartnerList(partners) == "" <==> partners == []
    ensures PartnerList(partners) != "" ==> PartnerList(partners)[|PartnerList(partners)| - 1] != '\n'
  {
    if partners != [] {
      var lines := seq(|partners|, i requires 0 <= i < |partners| => NumberedLine(i, partners[i]));
      var last := lines[|lines| - 1];
      NumberedLineSingle(|lines| - 1, partners[|lines| - 1]);
      JoinEndsWithLast(lines, "\n");
      assert |last| > 0;
    }
  }

  /** A template without either placeholder is returned unchanged. */
  lemma FormatPromptNoPlaceholders(template: string, attributesJson: string, partners: seq<Dict>)
    requires forall k: nat :: !OccursAt(template, AttributesPlaceholder, k)
    requires forall k: nat :: !OccursAt(template, PartnersPlaceholder, k)
    ensures FormatPrompt(template, attributesJson, partners) == template
  {
    ReplaceAbsent(template, AttributesPlaceholder, attributesJson);
    ReplaceAbsent(template, PartnersPlaceholder, PartnerList(partners));
  }
}
