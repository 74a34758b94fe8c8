// What saving the positive balances of an address promises.
module FindingLaws {
  import opened Results
  import opened Tables

  function KeyOf(finding: Finding): Key { Key(finding.id, finding.chain) }

  ghost predicate DistinctKeys(findings: seq<Finding>) {
    forall i, j :: 0 <= i < j < |findings| ==> KeyOf(findings[i]) != KeyOf(findings[j])
  }

  // The finding differs from what the table holds, or is new to it.
  predicate Changes(stored: map<Key, Stored>, finding: Finding) {
    KeyOf(finding) !in stored || stored[KeyOf(finding)].atomic != finding.atomic
  }

  function Keys(findings: seq<Finding>): set<Key> {
    set i | 0 <= i < |findings| :: KeyOf(findings[i])
  }

  // The i-th finding is the first that changes the table.
  ghost predicate FirstChange(stored: map<Key, Stored>, findings: seq<Finding>, i: int) {
    && 0 <= i < |findings| && Changes(stored, findings[i])
    && forall j :: 0 <= j < i ==> !Changes(stored, findings[j])
  }

  ghost function Run(stored: map<Key, Stored>, findings: seq<Finding>): Saving {
    UpsertAll(Saving(stored, None, false), findings)
  }

  // The table takes each finding under its key and keeps every other row.
  ghost predicate OneUpdate(stored: map<Key, Stored>, after: map<Key, Stored>, findings: seq<Finding>) {
    && after.Keys == stored.Keys + Keys(findings)
    && (forall i :: 0 <= i < |findings| ==>
          after[KeyOf(findings[i])] == Stored(findings[i].atomic, findings[i].symbol))
    && (forall key :: key in stored && key !in Keys(findings) ==> after[key] == stored[key])
  }

  // With distinct keys the row-by-row transaction is one map update.
  lemma {:induction false} UpsertIsOneUpdate(stored: map<Key, Stored>, findings: seq<Finding>)
    requires DistinctKeys(findings)
    ensures OneUpdate(stored, Run(stored, findings).findings, findings)
  {
    if findings != [] {
      var before := findings[..|findings| - 1];
      UpsertIsOneUpdate(stored, before);
      UpdateExtends(stored, Run(stored, before), findings);
    }
  }

  lemma {:induction false} UpdateExtends(stored: map<Key, Stored>, saving: Saving, findings: seq<Finding>)
    requires findings != [] && DistinctKeys(findings)
    requires OneUpdate(stored, saving.findings, findings[..|findings| - 1])
    ensures OneUpdate(stored, Upsert(saving, findings[|findings| - 1]).findings, findings)
  {
    var n := |findings| - 1;
    KeysExtend(findings);
    forall i | 0 <= i < n ensures findings[..n][i] == findings[i] && KeyOf(findings[i]) != KeyOf(findings[n]) {}
  }

  lemma {:induction false} KeysExtend(findings: seq<Finding>)
    requires findings != []
    ensures Keys(findings) == Keys(findings[..|findings| - 1]) + {KeyOf(findings[|findings| - 1])}
  {
    var n := |findings| - 1;
    forall i | 0 <= i < n ensures findings[..n][i] == findings[i] {}
  }

  // The last of distinct findings meets the table as it was.
  lemma {:induction false} LastMeetsStored(stored: map<Key, Stored>, findings: seq<Finding>)
    requires findings != [] && DistinctKeys(findings)
    ensures var before := Run(stored, findings[..|findings| - 1]).findings;
            var last := findings[|findings| - 1];
            && (KeyOf(last) in before <==> KeyOf(last) in stored)
            && (Changes(before, last) <==> Changes(stored, last))
  {
    var n := |findings| - 1;
    UpsertIsOneUpdate(stored, findings[..n]);
    assert KeyOf(findings[n]) !in Keys(findings[..n]);
  }

  lemma {:induction false} CreatedIffNew(stored: map<Key, Stored>, findings: seq<Finding>)
    requires DistinctKeys(findings)
    ensures Run(stored, findings).createdAny <==> !(Keys(findings) <= stored.Keys)
  {
    if findings != [] {
      var n := |findings| - 1;
      CreatedIffNew(stored, findings[..n]);
      LastMeetsStored(stored, findings);
      KeysExtend(findings);
    }
  }

  lemma {:induction false} ChangedIsFirstChange(stored: map<Key, Stored>, findings: seq<Finding>)
    requires DistinctKeys(findings)
    ensures var changed := Run(stored, findings).changed;
            if changed.None? then forall i :: 0 <= i < |findings| ==> !Changes(stored, findings[i])
            else exists i :: FirstChange(stored, findings, i) && changed.value == KeyOf(findings[i])
  {
    if findings != [] {
      var n := |findings| - 1;
      var before := findings[..n];
      ChangedIsFirstChange(stored, before);
      LastMeetsStored(stored, findings);
      assert forall i :: 0 <= i < n ==> before[i] == findings[i];
      var earlier := Run(stored, before).changed;
      if earlier.Some? {
        var i :| FirstChange(stored, before, i) && earlier.value == KeyOf(before[i]);
        assert FirstChange(stored, findings, i);
      } else if Changes(stored, findings[n]) {
        assert FirstChange(stored, findings, n);
      }
    }
  }

  // One event is created exactly when some balance is new or different. It points at the first such
  // finding, and is a first sighting exactly when some row was created.
  lemma {:induction false} EventIffChanged(db: Db, findings: seq<Finding>)
    requires DistinctKeys(findings)
    ensures var after := SaveFindings(db, findings);
            && after.notices[..|db.notices|] == db.notices
            && (if forall i :: 0 <= i < |findings| ==> !Changes(db.findings, findings[i])
                then after.notices == db.notices
                else exists i :: FirstChange(db.findings, findings, i)
                       && after.notices == db.notices + [if Keys(findings) <= db.findings.Keys
                                                         then BalanceChanged(KeyOf(findings[i]))
                                                         else FirstPositive(KeyOf(findings[i]))])
  {
    CreatedIffNew(db.findings, findings);
    ChangedIsFirstChange(db.findings, findings);
  }

  // Saving the same findings again, as a run does after a crash, changes no row and creates no event.
  lemma {:induction false} ReplayChangesNothing(db: Db, findings: seq<Finding>)
    requires DistinctKeys(findings)
    ensures var once := SaveFindings(db, findings);
            SaveFindings(once, findings) == once
  {
    var once := SaveFindings(db, findings);
    UpsertIsOneUpdate(db.findings, findings);
    UpsertIsOneUpdate(once.findings, findings);
    ChangedIsFirstChange(once.findings, findings);
    assert forall i :: 0 <= i < |findings| ==> !Changes(once.findings, findings[i]);
    assert SaveFindings(once, findings).findings == once.findings;
  }
}
