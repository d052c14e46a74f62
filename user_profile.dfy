/**
 * The profile page: the weight statistics, the field updates of the profile object it
 * holds, the personal-information edit (start, cancel, the payload it saves), and the
 * guard and body of a new weight entry.
 */
module UserProfile {
  import opened JsValues
  import opened Text
  import opened Weighings
  import opened StoreModel
  import opened Sorting

  // ---------------------------------------------------------------------------
  // Weight statistics

  /** `getWeightStats`'s result. */
  datatype WeightStats = WeightStats(current: real, total: real, recent: real, entries: nat)

  /**
   * `getWeightStats`: nothing for no entries; otherwise, over a copy sorted by date, the last
   * weight, its change from the first, its change from the second-last (0 for a single entry),
   * and the number of entries.
   */
  function GetWeightStats(weightEntries: seq<Weighing>): (r: Option<WeightStats>)
    ensures r.None? <==> weightEntries == []
    ensures r.Some? ==> r.value.entries == |weightEntries|
    ensures r.Some? ==> var sorted := ByDate(weightEntries);
      && r.value.current == sorted[|sorted| - 1].weight
      && r.value.total == r.value.current - sorted[0].weight
      && r.value.recent == (if |sorted| > 1 then r.value.current - sorted[|sorted| - 2].weight else 0.0)
    ensures |weightEntries| == 1 ==> r == Some(WeightStats(weightEntries[0].weight, 0.0, 0.0, 1))
  {
    if |weightEntries| == 0 then None
    else
      var sortedEntries := ByDate(weightEntries);
      var firstEntry := sortedEntries[0];
      var lastEntry := sortedEntries[|sortedEntries| - 1];
      var currentWeight := lastEntry.weight;
      var totalChange := currentWeight - firstEntry.weight;
      var recentChange := if |sortedEntries| > 1 then currentWeight - sortedEntries[|sortedEntries| - 2].weight else 0.0;
      assert |weightEntries| == 1 ==> sortedEntries[0] in multiset(weightEntries);
      Some(WeightStats(currentWeight, totalChange, recentChange, |sortedEntries|))
  }

  /**
   * The current weight is that of an entry with the latest date, and the total change is
   * measured from an entry with the earliest date.
   */
  lemma StatsSpanTheDates(weightEntries: seq<Weighing>)
    requires weightEntries != []
    ensures var st := GetWeightStats(weightEntries).value;
      exists last, first :: last in weightEntries && first in weightEntries
        && st.current == last.weight && st.total == last.weight - first.weight
        && forall w :: w in weightEntries ==> DateLe(w.date, last.date) && DateLe(first.date, w.date)
  {
    ByDateEnds(weightEntries);
    var sorted := ByDate(weightEntries);
    var last, first := sorted[|sorted| - 1], sorted[0];
    var st := GetWeightStats(weightEntries).value;
    assert st.current == last.weight && st.total == last.weight - first.weight;
    assert forall w :: w in weightEntries ==> DateLe(w.date, last.date) && DateLe(first.date, w.date);
    assert last in weightEntries && first in weightEntries;
  }

  /**
   * The recent change is measured between the entry with the latest date and the latest of
   * the other entries.
   */
  lemma RecentIsFromAnEarlierEntry(weightEntries: seq<Weighing>)
    requires |weightEntries| >= 2
    ensures exists last, prev :: RecentPair(weightEntries, GetWeightStats(weightEntries).value, last, prev)
  {
    var sorted := ByDate(weightEntries);
    var n := |sorted|;
    var last, prev := sorted[n - 1], sorted[n - 2];
    var others := sorted[..n - 1];
    LastTwoOfSorted(sorted);
    assert sorted == others + [last];
    assert multiset(others) == multiset(weightEntries) - multiset{last};
    assert forall w :: w in weightEntries ==> w in multiset(sorted);
    var st := GetWeightStats(weightEntries).value;
    assert st.current == last.weight && st.recent == last.weight - prev.weight;
    assert last in multiset(weightEntries);
    var rest := multiset(weightEntries) - multiset{last};
    assert prev in rest;
    assert forall w :: w in weightEntries ==> DateLe(w.date, last.date);
    assert forall w :: w in rest ==> DateLe(w.date, prev.date);
    assert RecentPair(weightEntries, st, last, prev);
  }

  /**
   * `last` is an entry with the latest date, `prev` the latest of the other entries, and the
   * statistics' current weight and recent change are measured between them.
   */
  ghost predicate RecentPair(weightEntries: seq<Weighing>, st: WeightStats, last: Weighing, prev: Weighing)
  {
    && last in weightEntries && prev in multiset(weightEntries) - multiset{last}
    && st.current == last.weight && st.recent == last.weight - prev.weight
    && (forall w :: w in weightEntries ==> DateLe(w.date, last.date))
    && (forall w :: w in multiset(weightEntries) - multiset{last} ==> DateLe(w.date, prev.date))
  }

  /** In a sequence sorted by date, the last entry is the latest and the one before it the latest of the rest. */
  lemma LastTwoOfSorted(sorted: seq<Weighing>)
    requires |sorted| >= 2 && SortedBy(sorted, WeighingDate)
    ensures var n := |sorted|;
      && (forall w :: w in sorted ==> DateLe(w.date, sorted[n - 1].date))
      && sorted[n - 2] in multiset(sorted[..n - 1])
      && (forall w :: w in multiset(sorted[..n - 1]) ==> DateLe(w.date, sorted[n - 2].date))
  {
    var n := |sorted|;
    var others := sorted[..n - 1];
    assert sorted[n - 2] == others[n - 2];
    forall w | w in multiset(others) ensures DateLe(w.date, sorted[n - 2].date) {
      var i :| 0 <= i < |others| && others[i] == w;
      if i < n - 2 {
        assert DateLe(WeighingDate(sorted[i]), WeighingDate(sorted[n - 2]));
      } else {
        DateLeReflexive(w.date);
      }
    }
    forall w | w in sorted ensures DateLe(w.date, sorted[n - 1].date) {
      var i :| 0 <= i < n && sorted[i] == w;
      if i < n - 1 {
        assert DateLe(WeighingDate(sorted[i]), WeighingDate(sorted[n - 1]));
      } else {
        DateLeReflexive(w.date);
      }
    }
  }

  // ---------------------------------------------------------------------------
  // The profile object

  /** The profile as the page holds it: the JSON object the server sent, edited in place. */
  type ProfileObject = map<string, Js>

  /** The index of the first `.` in `s`, or `|s|` when there is none. */
  function FirstDot(s: string): (k: nat)
    ensures k <= |s|
    ensures forall i :: 0 <= i < k ==> s[i] != '.'
    ensures k < |s| ==> s[k] == '.'
  {
    if s == [] then 0
    else if s[0] == '.' then 0
    else 1 + FirstDot(s[1..])
  }

  /** `field.split(".")`'s first two parts: the text before the first dot and the text between it and the next. */
  function SplitPath(field: string): (r: (string, string))
    requires '.' in field
    ensures '.' !in r.0 && '.' !in r.1
    ensures r.0 + "." + r.1 <= field
  {
    var k := FirstDot(field);
    var rest := field[k + 1..];
    var m := FirstDot(rest);
    (field[..k], rest[..m])
  }

  /** Dots are looked for past a dot-free prefix. */
  lemma {:induction false} FirstDotPast(a: string, b: string)
    requires '.' !in a
    ensures FirstDot(a + b) == |a| + FirstDot(b)
  {
    if a != [] {
      assert (a + b)[0] == a[0] && a[0] != '.' && '.' !in a[1..];
      assert (a + b)[1..] == a[1..] + b;
      assert FirstDot(a + b) == 1 + FirstDot((a + b)[1..]);
      FirstDotPast(a[1..], b);
    } else {
      assert a + b == b;
    }
  }

  /** A path of two dot-free names splits back into those names. */
  lemma SplitOfPath(parent: string, child: string)
    requires '.' !in parent && '.' !in child
    ensures '.' in parent + "." + child
    ensures SplitPath(parent + "." + child) == (parent, child)
  {
    var field := parent + "." + child;
    assert field[|parent|] == '.';
    FirstDotPast(parent, "." + child);
    assert field[|parent| + 1..] == child + [];
    FirstDotPast(child, []);
    assert field[..|parent|] == parent;
  }

  /**
   * The own fields of `v` as an object spread reads them: exactly the properties a read of `v`
   * finds; a spread of a non-object adds nothing.
   */
  function SpreadFields(v: Js): (r: map<string, Js>)
    ensures forall k :: k in r ==> r[k] == Get(v, k)
    ensures forall k :: Get(v, k) != Undefined ==> k in r
    ensures !v.Obj? ==> r == map[]
  {
    if v.Obj? then v.fields else map[]
  }

  /**
   * `updateProfile`: a `parent.child` path replaces `child` inside a copy of the `parent`
   * object; a plain name replaces that field.
   */
  function UpdateProfile(profile: ProfileObject, field: string, value: Js): (r: ProfileObject)
    ensures '.' !in field ==> r == profile[field := value]
    ensures '.' in field ==> var (parent, child) := SplitPath(field);
      && parent in r && r[parent].Obj?
      && child in r[parent].fields && r[parent].fields[child] == value
      && (forall k :: k in SpreadFields(Get(Obj(profile), parent)) && k != child ==>
             k in r[parent].fields && r[parent].fields[k] == SpreadFields(Get(Obj(profile), parent))[k])
      && (forall k :: k in r[parent].fields ==> k == child || k in SpreadFields(Get(Obj(profile), parent)))
    ensures '.' in field ==> forall k :: k != SplitPath(field).0 ==> (k in r <==> k in profile)
    ensures '.' in field ==> forall k :: k in profile && k != SplitPath(field).0 ==> r[k] == profile[k]
  {
    if '.' in field then
      var (parent, child) := SplitPath(field);
      profile[parent := Obj(SpreadFields(Get(Obj(profile), parent))[child := value])]
    else
      profile[field := value]
  }

  /** The keys of the four target inputs, each of which edits `dailyTargets.<key>`. */
  predicate IsTargetKey(key: string)
  {
    key == "calories" || key == "proteins" || key == "carbohydrates" || key == "fat"
  }

  /** The target a key names. */
  function TargetOf(t: Targets, key: string): real
    requires IsTargetKey(key)
  {
    if key == "calories" then t.calories
    else if key == "proteins" then t.proteins
    else if key == "carbohydrates" then t.carbohydrates
    else t.fat
  }

  /** A target input's update replaces that key inside `dailyTargets`. */
  lemma TargetPath(profile: ProfileObject, key: string, value: Js)
    requires IsTargetKey(key)
    ensures BodyOf(UpdateProfile(profile, "dailyTargets." + key, value)).dailyTargets
         == Obj(SpreadFields(Get(Obj(profile), "dailyTargets"))[key := value])
  {
    assert "dailyTargets." + key == "dailyTargets" + "." + key;
    SplitOfPath("dailyTargets", key);
  }

  /** The body the server reads from the profile object it is sent. */
  function BodyOf(profile: ProfileObject): ProfileBody
  {
    ProfileBody(Get(Obj(profile), "name"), Get(Obj(profile), "dailyTargets"))
  }

  /** Each saved target is its key's `parseFloat(t) || default`. */
  lemma SavedTargetOf(body: ProfileBody, stored: Option<Profile>, now: string, key: string)
    requires IsTargetKey(key)
    ensures TargetOf(ProfileFromBody(body, stored, now).dailyTargets, key)
         == ParseFloatOr(Get(body.dailyTargets, key), TargetOf(DefaultTargets, key))
  {
  }

  /**
   * A target typed into its field and saved is the target the server keeps, when it is a
   * nonzero number; the other targets are kept as they were.
   */
  lemma EditedTargetIsSaved(profile: ProfileObject, key: string, x: real, stored: Option<Profile>, now: string)
    requires IsTargetKey(key) && x != 0.0
    ensures var saved := ProfileFromBody(BodyOf(UpdateProfile(profile, "dailyTargets." + key, Num(x))), stored, now);
      && TargetOf(saved.dailyTargets, key) == x
      && forall k :: IsTargetKey(k) && k != key ==>
           TargetOf(saved.dailyTargets, k) == TargetOf(ProfileFromBody(BodyOf(profile), stored, now).dailyTargets, k)
  {
    var before := ProfileFromBody(BodyOf(profile), stored, now);
    var body := BodyOf(UpdateProfile(profile, "dailyTargets." + key, Num(x)));
    TargetPath(profile, key, Num(x));
    TargetEditKeepsOthers(Get(Obj(profile), "dailyTargets"), key, Num(x));
    SavedTargetOf(body, stored, now, key);
    forall k | IsTargetKey(k) && k != key
      ensures TargetOf(ProfileFromBody(body, stored, now).dailyTargets, k) == TargetOf(before.dailyTargets, k)
    {
      SavedTargetOf(body, stored, now, k);
      SavedTargetOf(BodyOf(profile), stored, now, k);
    }
  }

  lemma TargetEditKeepsOthers(before: Js, key: string, value: Js)
    ensures var after := Obj(SpreadFields(before)[key := value]);
      && Get(after, key) == value
      && forall k :: k != key ==> Get(after, k) == Get(before, k)
  {
  }

  /**
   * The target inputs send `parseFloat(value) || 0`; a cleared or zero field is saved as the
   * server's default for that target.
   */
  lemma ClearedTargetIsSavedAsDefault(profile: ProfileObject, key: string, stored: Option<Profile>, now: string)
    requires IsTargetKey(key)
    ensures TargetOf(ProfileFromBody(BodyOf(UpdateProfile(profile, "dailyTargets." + key, Num(0.0))), stored, now)
              .dailyTargets, key) == TargetOf(DefaultTargets, key)
  {
    TargetPath(profile, key, Num(0.0));
    SavedTargetOf(BodyOf(UpdateProfile(profile, "dailyTargets." + key, Num(0.0))), stored, now, key);
  }

  // ---------------------------------------------------------------------------
  // Personal information

  /** The personal information being edited. */
  datatype TempInfo = TempInfo(name: Js, initialWeight: Js, height: Js)

  /** Whether the personal information is being edited, and the values being edited. */
  datatype Editing = Editing(editing: bool, temp: TempInfo)

  /** `startEditingPersonalInfo`: the edit starts from the profile's own values. */
  function StartEditing(profile: ProfileObject): (e: Editing)
    ensures e.editing
    ensures e.temp.name == Get(Obj(profile), "name")
    ensures e.temp.initialWeight == Get(Obj(profile), "initialWeight")
    ensures e.temp.height == Get(Obj(profile), "height")
  {
    Editing(true, TempInfo(Get(Obj(profile), "name"), Get(Obj(profile), "initialWeight"), Get(Obj(profile), "height")))
  }

  /** `cancelEditingPersonalInfo`: not editing, with an empty name and no weight or height. */
  function CancelEditing(e: Editing): (r: Editing)
    ensures !r.editing && r.temp == TempInfo(Str(""), Null, Null)
  {
    Editing(false, TempInfo(Str(""), Null, Null))
  }

  /** The personal-information fields the edit form changes. */
  datatype PersonalField = Name | InitialWeight | Height

  /** `updateTempPersonalInfo`: that one field replaced. */
  function UpdateTemp(t: TempInfo, field: PersonalField, value: Js): (r: TempInfo)
    ensures field == Name ==> r == t.(name := value)
    ensures field == InitialWeight ==> r == t.(initialWeight := value)
    ensures field == Height ==> r == t.(height := value)
  {
    match field
    case Name => t.(name := value)
    case InitialWeight => t.(initialWeight := value)
    case Height => t.(height := value)
  }

  /** The object `confirmSavePersonalInfo` sends: the profile with its three personal fields replaced. */
  function SavePayload(profile: ProfileObject, t: TempInfo): (r: ProfileObject)
    ensures r.Keys == profile.Keys + {"name", "initialWeight", "height"}
    ensures r["name"] == t.name && r["initialWeight"] == t.initialWeight && r["height"] == t.height
    ensures forall k :: k in profile && k !in {"name", "initialWeight", "height"} ==> r[k] == profile[k]
  {
    profile["name" := t.name]["initialWeight" := t.initialWeight]["height" := t.height]
  }

  /** The object `JSON.stringify` writes: the keys whose value is `undefined` are dropped. */
  function Stringified(o: ProfileObject): (r: ProfileObject)
    ensures forall k :: k in r <==> k in o && o[k] != Undefined
    ensures forall k :: k in r ==> r[k] == o[k]
  {
    map k | k in o && o[k] != Undefined :: o[k]
  }

  /**
   * Saving without editing sends the profile back as it was: the three personal fields are
   * copied from the profile, and those it lacks are sent as `undefined`, which the JSON text
   * leaves out. The server therefore saves what it would save for the profile itself.
   */
  lemma UneditedSaveIsIdentity(profile: ProfileObject, stored: Option<Profile>, now: string)
    ensures Stringified(SavePayload(profile, StartEditing(profile).temp)) == Stringified(profile)
    ensures ProfileFromBody(BodyOf(SavePayload(profile, StartEditing(profile).temp)), stored, now)
         == ProfileFromBody(BodyOf(profile), stored, now)
  {
    var sent := SavePayload(profile, StartEditing(profile).temp);
    forall k | k in sent ensures sent[k] == Get(Obj(profile), k) {
    }
    assert Stringified(sent) == Stringified(profile);
  }

  /**
   * The save keeps the targets and sends the new name, but the server's profile has no
   * weight or height: what it keeps does not depend on the edited weight and height.
   */
  lemma SavedProfileIgnoresMeasurements(profile: ProfileObject, t: TempInfo, u: TempInfo, stored: Option<Profile>, now: string)
    requires t.name == u.name
    ensures ProfileFromBody(BodyOf(SavePayload(profile, t)), stored, now)
         == ProfileFromBody(BodyOf(SavePayload(profile, u)), stored, now)
    ensures BodyOf(SavePayload(profile, t)).dailyTargets == BodyOf(profile).dailyTargets
    ensures BodyOf(SavePayload(profile, t)).name == t.name
  {
  }

  // ---------------------------------------------------------------------------
  // Adding a weight entry

  const MissingWeightFields := "Please fill in all fields: weight, date, and time."

  /**
   * `addWeightEntry`'s guard and body: a warning and no request when a field is empty,
   * otherwise `{date, time, weight: parseFloat(newWeight)}` as JSON carries it.
   */
  function WeightSubmission(newWeight: string, newWeightDate: string, newWeightTime: string): (r: Option<WeightBody>)
    ensures r.None? <==> newWeight == "" || newWeightDate == "" || newWeightTime == ""
    ensures r.Some? ==> r.value.date == newWeightDate && r.value.time == Str(newWeightTime)
    ensures r.Some? ==> r.value.weight == Serialized(ParseFloat(Str(newWeight)))
  {
    if newWeight == "" || newWeightDate == "" || newWeightTime == "" then None
    else Some(WeightBody(newWeightDate, Serialized(ParseFloat(Str(newWeight))), Str(newWeightTime)))
  }

  /**
   * A submitted entry passes the server's "Date and weight are required" check exactly when
   * the typed weight parses to a nonzero number: "abc" and "0" are refused.
   */
  lemma SubmissionAcceptedIffNonzero(newWeight: string, newWeightDate: string, newWeightTime: string)
    requires WeightSubmission(newWeight, newWeightDate, newWeightTime).Some?
    ensures var b := WeightSubmission(newWeight, newWeightDate, newWeightTime).value;
      (b.date != "" && Truthy(b.weight)) <==> (ParseFloat(Str(newWeight)).Num? && ParseFloat(Str(newWeight)).n != 0.0)
  {
  }
}
