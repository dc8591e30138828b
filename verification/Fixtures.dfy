/** The closed table of synthetic cases and the one simulated tool that reads it. */
module Fixtures {
  import opened Texts
  import opened Json

  datatype SyntheticCase = SyntheticCase(
    tenant: Text,
    allowedTransitions: seq<Text>,
    category: Text,
    customerDisplayName: Text,
    requestSummary: Text)

  /** The program ships one case; every statement here holds for any table. */
  type Cases = map<Text, SyntheticCase>

  function ShippedCaseId(): Text { Lit("case_support_password_reset") }

  /** `_SYNTHETIC_CASES` */
  function ShippedCases(): Cases {
    map[ShippedCaseId() := SyntheticCase(
          Lit("demo_tenant_northstar"), [Lit("triaged"), Lit("resolution_prepared")], Lit("ordinary_support"),
          Lit("Northstar Demo Customer"), Lit("Needs password-reset guidance for the synthetic demo workspace."))]
  }

  /** No listed case id or transition holds a surrogate or a character that a surrogate pair encodes. */
  predicate BasicTable(cases: Cases) {
    forall c | c in cases :: Basic(c)
      && forall k | 0 <= k < |cases[c].allowedTransitions| :: Basic(cases[c].allowedTransitions[k])
  }

  lemma ShippedTableIsBasic()
    ensures BasicTable(ShippedCases())
  {
    LitIsBasic("case_support_password_reset");
    LitIsBasic("triaged");
    LitIsBasic("resolution_prepared");
  }

  function PrintList(items: seq<Text>): Text {
    if items == [] then []
    else if |items| == 1 then PrintString(items[0])
    else PrintString(items[0]) + [COMMA] + PrintList(items[1..])
  }

  function CaseMembers(caseId: Text, c: SyntheticCase): seq<Member> {
    [Member(Lit("case_id"), caseId), Member(Lit("category"), c.category),
     Member(Lit("customer_display_name"), c.customerDisplayName), Member(Lit("request_summary"), c.requestSummary),
     Member(Lit("tenant"), c.tenant)]
  }

  /** `get_synthetic_fixture_digest(case_id).fixture_sha256` of a known case. */
  function FixtureDigest(caseId: Text, c: SyntheticCase): Text {
    Sha256Hex([OPEN_BRACE] + PrintString(Lit("allowed_transitions")) + [COLON, OPEN_BRACKET]
              + PrintList(c.allowedTransitions) + [CLOSE_BRACKET, COMMA]
              + PrintMembers(CaseMembers(caseId, c))
              + [CLOSE_BRACE])
  }

  /** The lists print alike, text by text. */
  predicate SameTexts(xs: seq<Text>, ys: seq<Text>) {
    |xs| == |ys| && forall i | 0 <= i < |xs| :: Joined(xs[i]) == Joined(ys[i])
  }

  function ListTail(items: seq<Text>, rest: Text): Text
    requires items != []
  {
    if |items| == 1 then rest else [COMMA] + (PrintList(items[1..]) + rest)
  }

  lemma StartsQuoted(t: Text)
    ensures PrintString(t) != [] && PrintString(t)[0] == QUOTE
  {
    hide Escape;
  }

  lemma ListHead(items: seq<Text>, rest: Text)
    requires items != []
    ensures PrintList(items) + rest == PrintString(items[0]) + ListTail(items, rest)
    ensures (PrintList(items) + rest)[0] == QUOTE
  {
    hide PrintString, PrintList;
    StartsQuoted(items[0]);
    ListUnrolls(items);
    if |items| > 1 { Regroup(PrintString(items[0]), [COMMA], PrintList(items[1..]), rest); }
    assert (PrintString(items[0]) + ListTail(items, rest))[0] == PrintString(items[0])[0];
  }

  lemma ListUnrolls(items: seq<Text>)
    requires items != []
    ensures PrintList(items) == if |items| == 1 then PrintString(items[0])
                                else PrintString(items[0]) + [COMMA] + PrintList(items[1..])
  {
    hide PrintString;
  }

  lemma Regroup(a: Text, b: Text, c: Text, d: Text)
    ensures a + b + c + d == a + (b + (c + d))
  {
  }

  /** Printed lists up to their closing bracket are determined text by text. */
  lemma {:induction false} ListsInjective(xs: seq<Text>, ra: Text, ys: seq<Text>, rb: Text)
    requires ra != [] && ra[0] == CLOSE_BRACKET && rb != [] && rb[0] == CLOSE_BRACKET
    ensures PrintList(xs) + ra == PrintList(ys) + rb <==> SameTexts(xs, ys) && ra == rb
  {
    hide PrintString, PrintList, Joined, ListTail, SameTexts;
    if xs == [] || ys == [] {
      EmptyLists(xs, ra, ys, rb);
    } else {
      ListHead(xs, ra);
      ListHead(ys, rb);
      PrintStringInjective(xs[0], ListTail(xs, ra), ys[0], ListTail(ys, rb));
      ListsInjective(xs[1..], ra, ys[1..], rb);
      TailsEqualIff(xs, ra, ys, rb);
      SameFromFirst(xs, ys);
    }
  }

  lemma EmptyLists(xs: seq<Text>, ra: Text, ys: seq<Text>, rb: Text)
    requires ra != [] && ra[0] == CLOSE_BRACKET && rb != [] && rb[0] == CLOSE_BRACKET
    requires xs == [] || ys == []
    ensures PrintList(xs) + ra == PrintList(ys) + rb <==> SameTexts(xs, ys) && ra == rb
  {
    hide PrintString, Joined;
    if xs != [] { ListHead(xs, ra); }
    if ys != [] { ListHead(ys, rb); }
    if xs == [] { assert PrintList(xs) + ra == ra; }
    if ys == [] { assert PrintList(ys) + rb == rb; }
  }

  lemma TailsEqualIff(xs: seq<Text>, ra: Text, ys: seq<Text>, rb: Text)
    requires xs != [] && ys != []
    requires ra != [] && ra[0] == CLOSE_BRACKET && rb != [] && rb[0] == CLOSE_BRACKET
    requires PrintList(xs[1..]) + ra == PrintList(ys[1..]) + rb <==> SameTexts(xs[1..], ys[1..]) && ra == rb
    ensures ListTail(xs, ra) == ListTail(ys, rb) <==> SameTexts(xs[1..], ys[1..]) && ra == rb
  {
    hide PrintString, Joined, PrintList;
    if |xs| > 1 { assert ListTail(xs, ra)[1..] == PrintList(xs[1..]) + ra; }
    if |ys| > 1 { assert ListTail(ys, rb)[1..] == PrintList(ys[1..]) + rb; }
  }

  lemma SameFromFirst(xs: seq<Text>, ys: seq<Text>)
    requires xs != [] && ys != []
    ensures SameTexts(xs, ys) <==> Joined(xs[0]) == Joined(ys[0]) && SameTexts(xs[1..], ys[1..])
  {
    hide Joined;
    if Joined(xs[0]) == Joined(ys[0]) && SameTexts(xs[1..], ys[1..]) {
      forall i | 0 <= i < |xs| ensures Joined(xs[i]) == Joined(ys[i]) {
        if i > 0 { assert xs[i] == xs[1..][i - 1] && ys[i] == ys[1..][i - 1]; }
      }
    }
    if SameTexts(xs, ys) { assert forall i | 0 <= i < |xs[1..]| :: xs[1..][i] == xs[i + 1] && ys[1..][i] == ys[i + 1]; }
  }

  /** The cases print alike under their ids. */
  predicate SameCase(a: Text, c: SyntheticCase, b: Text, d: SyntheticCase) {
    && Joined(a) == Joined(b) && Joined(c.category) == Joined(d.category) && Joined(c.tenant) == Joined(d.tenant)
    && Joined(c.customerDisplayName) == Joined(d.customerDisplayName)
    && Joined(c.requestSummary) == Joined(d.requestSummary) && SameTexts(c.allowedTransitions, d.allowedTransitions)
  }

  lemma FiveAlike(x: seq<Member>, y: seq<Member>)
    requires |x| == |y| == 5 && forall i | 0 <= i < 5 :: x[i].key == y[i].key
    ensures (forall i | 0 <= i < 5 :: Joined(x[i].key) == Joined(y[i].key) && Joined(x[i].value) == Joined(y[i].value))
            <==> (Joined(x[0].value) == Joined(y[0].value) && Joined(x[1].value) == Joined(y[1].value)
                  && Joined(x[2].value) == Joined(y[2].value) && Joined(x[3].value) == Joined(y[3].value)
                  && Joined(x[4].value) == Joined(y[4].value))
  {
    hide Joined;
  }

  lemma MembersEqualIff(a: Text, c: SyntheticCase, b: Text, d: SyntheticCase)
    ensures PrintMembers(CaseMembers(a, c)) + [CLOSE_BRACE] == PrintMembers(CaseMembers(b, d)) + [CLOSE_BRACE] <==>
            && Joined(a) == Joined(b) && Joined(c.category) == Joined(d.category)
            && Joined(c.tenant) == Joined(d.tenant)
            && Joined(c.customerDisplayName) == Joined(d.customerDisplayName)
            && Joined(c.requestSummary) == Joined(d.requestSummary)
  {
    hide PrintMembers, Joined, Lit;
    var x, y := CaseMembers(a, c), CaseMembers(b, d);
    PrintMembersInjective(x, y);
    FiveAlike(x, y);
  }

  function FixtureTail(caseId: Text, c: SyntheticCase): Text {
    [CLOSE_BRACKET, COMMA] + (PrintMembers(CaseMembers(caseId, c)) + [CLOSE_BRACE])
  }

  lemma FixtureText(caseId: Text, c: SyntheticCase)
    ensures FixtureDigest(caseId, c) == Sha256Hex(
            ([OPEN_BRACE] + PrintString(Lit("allowed_transitions")) + [COLON, OPEN_BRACKET])
              + (PrintList(c.allowedTransitions) + FixtureTail(caseId, c)))
  {
    hide PrintMembers, PrintList, PrintString, Lit;
    var head := [OPEN_BRACE] + PrintString(Lit("allowed_transitions")) + [COLON, OPEN_BRACKET];
    var list, members := PrintList(c.allowedTransitions), PrintMembers(CaseMembers(caseId, c));
    assert head + list + [CLOSE_BRACKET, COMMA] + members + [CLOSE_BRACE]
        == head + (list + ([CLOSE_BRACKET, COMMA] + (members + [CLOSE_BRACE])));
  }

  /** Fixture digests agree exactly when id, transitions and the other four texts of the cases print alike. */
  lemma FixtureDigestsEqualIff(a: Text, c: SyntheticCase, b: Text, d: SyntheticCase)
    ensures FixtureDigest(a, c) == FixtureDigest(b, d) <==> SameCase(a, c, b, d)
  {
    hide PrintMembers, PrintList, PrintString, Lit, Joined, FixtureDigest, CaseMembers, SameTexts;
    FixtureText(a, c);
    FixtureText(b, d);
    var head := [OPEN_BRACE] + PrintString(Lit("allowed_transitions")) + [COLON, OPEN_BRACKET];
    var s := head + (PrintList(c.allowedTransitions) + FixtureTail(a, c));
    var t := head + (PrintList(d.allowedTransitions) + FixtureTail(b, d));
    assert Sha256Hex(s)[0] == Hex(Sha256(s)) && Sha256Hex(t)[0] == Hex(Sha256(t));
    assert s[|head|..] == PrintList(c.allowedTransitions) + FixtureTail(a, c);
    assert t[|head|..] == PrintList(d.allowedTransitions) + FixtureTail(b, d);
    ListsInjective(c.allowedTransitions, FixtureTail(a, c), d.allowedTransitions, FixtureTail(b, d));
    assert FixtureTail(a, c)[2..] == PrintMembers(CaseMembers(a, c)) + [CLOSE_BRACE];
    assert FixtureTail(b, d)[2..] == PrintMembers(CaseMembers(b, d)) + [CLOSE_BRACE];
    MembersEqualIff(a, c, b, d);
  }

  datatype ToolStatus = Simulated | UnknownCase | TransitionNotAllowed

  /** `prepare_simulated_ticket_transition` */
  function PrepareTransition(cases: Cases, caseId: Text, transition: Text): ToolStatus {
    if caseId !in cases then UnknownCase
    else if transition !in cases[caseId].allowedTransitions then TransitionNotAllowed
    else Simulated
  }
}
