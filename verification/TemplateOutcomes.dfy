/** What a template's plan holds, said of the markers and roles alone: which fields, which complaints, and when it is valid. */
module TemplateOutcomes {
  import opened Basics
  import opened EnvelopeFields
  import opened Anchors
  import opened FieldBoxes
  import opened TemplatePlan

  ghost predicate HasRole(roles: seq<Role>, key: string) {
    exists i :: 0 <= i < |roles| && roles[i].key == key
  }

  ghost predicate HasMarker(s: Sheet, key: string, kind: FieldType) {
    exists j :: 0 <= j < |s.page.scan.anchors| && s.page.scan.anchors[j].role == key && s.page.scan.anchors[j].kind == kind
  }

  lemma KeysAreRoles(roles: seq<Role>, key: string)
    ensures key in Keys(roles) <==> HasRole(roles, key)
  {
    if i :| 0 <= i < |roles| && roles[i].key == key {
      assert roles[i] in roles;
    }
  }

  /** This role wants initials on every page and has no marker of its own for them on this one. */
  ghost predicate Asks(s: Sheet, roles: seq<Role>, i: nat) {
    i < |roles| && roles[i].initialsAllPages && !HasMarker(s, roles[i].key, InitialsField)
  }

  /** The roles before `n` that were put into this corner of the page. */
  ghost function Before(s: Sheet, roles: seq<Role>, corner: Corner, n: nat): set<nat> {
    set j: nat | j < n && Asks(s, roles, j) && roles[j].corner == corner
  }

  ghost function MarkerField(s: Sheet, a: FoundAnchor): PlannedField
    requires Sized(s.page)
  {
    PlannedField(s.ref, a.role, a.kind, s.page.page, FieldFromAnchor(a, s.page.viewWidth, s.page.viewHeight), true)
  }

  ghost function AutomaticField(s: Sheet, roles: seq<Role>, i: nat): PlannedField
    requires Sized(s.page) && i < |roles|
  {
    PlannedField(s.ref, roles[i].key, InitialsField, s.page.page,
                 CornerInitials(roles[i].corner, |Before(s, roles, roles[i].corner, i)|, s.page.viewWidth, s.page.viewHeight), false)
  }

  /** A marker of one of the template's roles stands here. */
  ghost predicate FromMarker(f: PlannedField, s: Sheet, roles: seq<Role>) {
    Sized(s.page) && exists j :: 0 <= j < |s.page.scan.anchors| && HasRole(roles, s.page.scan.anchors[j].role)
                                 && f == MarkerField(s, s.page.scan.anchors[j])
  }

  /** Initials in the role's corner, next to those of the roles before it. */
  ghost predicate FromCorner(f: PlannedField, s: Sheet, roles: seq<Role>) {
    Sized(s.page) && exists i: nat :: i < |roles| && Asks(s, roles, i) && f == AutomaticField(s, roles, i)
  }

  // ---------------------------------------------------------------- the fields

  lemma AsksIsAutomatic(s: Sheet, roles: seq<Role>, i: nat)
    requires i < |roles|
    ensures Automatic(roles[i], AnchoredInitials(s, Keys(roles), |s.page.scan.anchors|)) <==> Asks(s, roles, i)
  {
    var anchors := s.page.scan.anchors;
    assert anchors[..|anchors|] == anchors;
    assert roles[i] in roles;
    if j :| 0 <= j < |anchors| && anchors[j].role == roles[i].key && anchors[j].kind == InitialsField {
      assert anchors[j] in anchors;
    }
  }

  lemma BeforeGrows(s: Sheet, roles: seq<Role>, corner: Corner, n: nat)
    ensures |Before(s, roles, corner, n + 1)|
            == |Before(s, roles, corner, n)| + if Asks(s, roles, n) && roles[n].corner == corner then 1 else 0
  {
    var here := if Asks(s, roles, n) && roles[n].corner == corner then {n} else {};
    assert Before(s, roles, corner, n + 1) == Before(s, roles, corner, n) + here;
  }

  lemma {:induction false} SlotIsCount(s: Sheet, roles: seq<Role>, corner: Corner, n: nat)
    requires n <= |roles|
    ensures Slot(roles, AnchoredInitials(s, Keys(roles), |s.page.scan.anchors|), corner, n) == |Before(s, roles, corner, n)|
  {
    if n > 0 {
      SlotIsCount(s, roles, corner, n - 1);
      AsksIsAutomatic(s, roles, n - 1);
      BeforeGrows(s, roles, corner, n - 1);
    }
  }

  lemma {:induction false} AnchorFieldsExactly(s: Sheet, roles: seq<Role>, n: nat, f: PlannedField)
    requires Sized(s.page) && n <= |s.page.scan.anchors|
    ensures f in AnchorFields(s, Keys(roles), n)
            <==> exists j :: 0 <= j < n && HasRole(roles, s.page.scan.anchors[j].role) && f == MarkerField(s, s.page.scan.anchors[j])
  {
    if n > 0 {
      AnchorFieldsExactly(s, roles, n - 1, f);
      KeysAreRoles(roles, s.page.scan.anchors[n - 1].role);
    }
  }

  lemma {:induction false} CornerFieldsExactly(s: Sheet, roles: seq<Role>, n: nat, f: PlannedField)
    requires Sized(s.page) && n <= |roles|
    ensures f in CornerFields(s, roles, AnchoredInitials(s, Keys(roles), |s.page.scan.anchors|), n)
            <==> exists i: nat :: i < n && Asks(s, roles, i) && f == AutomaticField(s, roles, i)
  {
    if n > 0 {
      CornerFieldsExactly(s, roles, n - 1, f);
      AsksIsAutomatic(s, roles, n - 1);
      SlotIsCount(s, roles, roles[n - 1].corner, n - 1);
    }
  }

  ghost predicate Planned(f: PlannedField, s: Sheet, roles: seq<Role>) {
    FromMarker(f, s, roles) || FromCorner(f, s, roles)
  }

  lemma SheetFieldsExactly(s: Sheet, roles: seq<Role>, f: PlannedField)
    requires Sized(s.page)
    ensures f in SheetFields(s, roles) <==> Planned(f, s, roles)
  {
    AnchorFieldsExactly(s, roles, |s.page.scan.anchors|, f);
    CornerFieldsExactly(s, roles, |roles|, f);
  }

  ghost predicate PlannedSomewhere(f: PlannedField, sheets: seq<Sheet>, roles: seq<Role>) {
    exists k :: 0 <= k < |sheets| && Planned(f, sheets[k], roles)
  }

  lemma OnePageMore(f: PlannedField, front: seq<Sheet>, last: Sheet, roles: seq<Role>)
    ensures PlannedSomewhere(f, front + [last], roles) <==> PlannedSomewhere(f, front, roles) || Planned(f, last, roles)
  {
    var sheets := front + [last];
    if k :| 0 <= k < |front| && Planned(f, front[k], roles) {
      assert Planned(f, sheets[k], roles);
    }
    assert sheets[|front|] == last;
  }

  lemma {:induction false} FieldsExactly(sheets: seq<Sheet>, roles: seq<Role>, f: PlannedField)
    requires SizedSheets(sheets)
    ensures f in FieldsOf(sheets, roles) <==> PlannedSomewhere(f, sheets, roles)
  {
    if sheets != [] {
      var front, last := sheets[..|sheets| - 1], sheets[|sheets| - 1];
      FieldsExactly(front, roles, f);
      SheetFieldsExactly(last, roles, f);
      assert front + [last] == sheets;
      OnePageMore(f, front, last, roles);
      InBoth(FieldsOf(front, roles), SheetFields(last, roles), f);
      assert FieldsOf(sheets, roles) == FieldsOf(front, roles) + SheetFields(last, roles);
    }
  }

  lemma InBoth(a: seq<PlannedField>, b: seq<PlannedField>, f: PlannedField)
    ensures f in a + b <==> f in a || f in b
  {
  }

  /** The plan's fields are exactly those of the markers of known roles, and the automatic initials of the roles that
      want them on every page, on the pages where they have no marker of their own. */
  lemma PlannedExactly(roles: seq<Role>, sheets: seq<Sheet>, f: PlannedField)
    requires SizedSheets(sheets)
    ensures f in PlanOf(roles, sheets).fields
            <==> exists k :: 0 <= k < |sheets| && Planned(f, sheets[k], roles)
  {
    FieldsExactly(sheets, roles, f);
  }

  // ---------------------------------------------------------------- the complaints

  lemma {:induction false} AnchorsExactly(sheets: seq<Sheet>, p: PlacedAnchor)
    ensures p in AnchorsOf(sheets)
            <==> exists k, j :: 0 <= k < |sheets| && 0 <= j < |sheets[k].page.scan.anchors|
                                && p == PlacedAnchor(sheets[k].ref, sheets[k].page, sheets[k].page.scan.anchors[j])
  {
    if sheets != [] {
      var front, last := sheets[..|sheets| - 1], sheets[|sheets| - 1];
      AnchorsExactly(front, p);
      if p in AnchorsOf(front) {
        var k, j :| 0 <= k < |front| && 0 <= j < |front[k].page.scan.anchors|
                    && p == PlacedAnchor(front[k].ref, front[k].page, front[k].page.scan.anchors[j]);
        assert sheets[k] == front[k];
      } else if p in SheetAnchors(last) {
        var j :| 0 <= j < |SheetAnchors(last)| && SheetAnchors(last)[j] == p;
        assert sheets[|sheets| - 1].page.scan.anchors[j] == last.page.scan.anchors[j];
      }
      if k, j :| 0 <= k < |sheets| && 0 <= j < |sheets[k].page.scan.anchors|
                 && p == PlacedAnchor(sheets[k].ref, sheets[k].page, sheets[k].page.scan.anchors[j]) {
        if k < |front| {
          assert front[k] == sheets[k];
        } else {
          assert SheetAnchors(last)[j] == p;
        }
      }
    }
  }

  /** Somewhere in the documents stands a marker of this role and kind. */
  ghost predicate Marked(sheets: seq<Sheet>, key: string, kind: FieldType) {
    exists k :: 0 <= k < |sheets| && HasMarker(sheets[k], key, kind)
  }

  ghost predicate Mentioned(sheets: seq<Sheet>, key: string) {
    exists kind :: Marked(sheets, key, kind)
  }

  lemma MarkedIsListed(sheets: seq<Sheet>, key: string, kind: FieldType)
    ensures Marked(sheets, key, kind) <==> exists p :: p in AnchorsOf(sheets) && p.anchor.role == key && p.anchor.kind == kind
  {
    if Marked(sheets, key, kind) {
      var k :| 0 <= k < |sheets| && HasMarker(sheets[k], key, kind);
      var j :| 0 <= j < |sheets[k].page.scan.anchors| && sheets[k].page.scan.anchors[j].role == key && sheets[k].page.scan.anchors[j].kind == kind;
      var p := PlacedAnchor(sheets[k].ref, sheets[k].page, sheets[k].page.scan.anchors[j]);
      AnchorsExactly(sheets, p);
      assert p in AnchorsOf(sheets);
    }
    if p :| p in AnchorsOf(sheets) && p.anchor.role == key && p.anchor.kind == kind {
      AnchorsExactly(sheets, p);
      var k, j :| 0 <= k < |sheets| && 0 <= j < |sheets[k].page.scan.anchors|
                  && p == PlacedAnchor(sheets[k].ref, sheets[k].page, sheets[k].page.scan.anchors[j]);
      assert HasMarker(sheets[k], key, kind);
    }
  }

  lemma OneRoleMore(front: seq<Role>, last: Role, key: string)
    ensures HasRole(front + [last], key) <==> HasRole(front, key) || last.key == key
  {
    var roles := front + [last];
    if i :| 0 <= i < |front| && front[i].key == key {
      assert roles[i].key == key;
    }
    assert roles[|front|] == last;
  }

  lemma {:induction false} MissingExactly(roles: seq<Role>, signed: set<string>, key: string)
    ensures key in Missing(roles, signed) <==> HasRole(roles, key) && key !in signed
  {
    if roles != [] {
      var front, last := roles[..|roles| - 1], roles[|roles| - 1];
      MissingExactly(front, signed, key);
      OneRoleMore(front, last, key);
      assert front + [last] == roles;
    }
  }

  /** A role is reported as unsigned exactly if it has no signature marker anywhere, and a role is reported as unknown
      exactly if some marker names it and the template does not have it. */
  lemma ComplaintsExactly(roles: seq<Role>, sheets: seq<Sheet>, key: string)
    requires SizedSheets(sheets)
    ensures key in PlanOf(roles, sheets).missingSignature <==> HasRole(roles, key) && !Marked(sheets, key, SignatureField)
    ensures key in PlanOf(roles, sheets).unknownRoles <==> Mentioned(sheets, key) && !HasRole(roles, key)
  {
    var anchors := AnchorsOf(sheets);
    KeysAreRoles(roles, key);
    MissingExactly(roles, SignedIn(anchors, Keys(roles)), key);
    MarkedIsListed(sheets, key, SignatureField);
    if p :| p in anchors && p.anchor.role == key {
      MarkedIsListed(sheets, key, p.anchor.kind);
      assert Marked(sheets, key, p.anchor.kind);
    }
    if Mentioned(sheets, key) {
      var kind :| Marked(sheets, key, kind);
      MarkedIsListed(sheets, key, kind);
    }
  }

  lemma {:induction false} InvalidExactly(sheets: seq<Sheet>)
    ensures InvalidOf(sheets) == [] <==> forall k | 0 <= k < |sheets| :: sheets[k].page.scan.invalid == []
  {
    if sheets != [] {
      InvalidExactly(sheets[..|sheets| - 1]);
      var last := sheets[|sheets| - 1];
      assert |SheetInvalid(last)| == |last.page.scan.invalid|;
    }
  }

  /** A plan is valid exactly if every role has a signature marker, every marker names a role of the template and no
      marker is malformed. */
  lemma ValidExactly(roles: seq<Role>, sheets: seq<Sheet>)
    requires SizedSheets(sheets)
    ensures IsPlanValid(PlanOf(roles, sheets))
            <==> && (forall i | 0 <= i < |roles| :: Marked(sheets, roles[i].key, SignatureField))
                 && (forall key | Mentioned(sheets, key) :: HasRole(roles, key))
                 && forall k | 0 <= k < |sheets| :: sheets[k].page.scan.invalid == []
  {
    var plan := PlanOf(roles, sheets);
    InvalidExactly(sheets);
    forall key ensures (key in plan.missingSignature <==> HasRole(roles, key) && !Marked(sheets, key, SignatureField))
                       && (key in plan.unknownRoles <==> Mentioned(sheets, key) && !HasRole(roles, key)) {
      ComplaintsExactly(roles, sheets, key);
    }
    if plan.missingSignature != [] {
      var key := plan.missingSignature[0];
      assert key in plan.missingSignature;
      var i :| 0 <= i < |roles| && roles[i].key == key;
    } else {
      forall i | 0 <= i < |roles| ensures Marked(sheets, roles[i].key, SignatureField) {
        assert HasRole(roles, roles[i].key);
      }
    }
  }
}
