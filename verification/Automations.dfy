/**
 * The automation list screen (src/pages/Automations.jsx): a list of automation records that
 * can be paused, resumed and deleted, a per-card dropdown of which at most one is open, and a
 * "new automation" form whose submission appends a record with the next free id. The screen
 * also formats the camelCase keys of each record's statistics into Title Case labels.
 */
module Automations {
  import opened Optional
  import opened IdLists
  import opened Ascii

  /** A statistic's value: the fixtures mix counts and preformatted text such as "24%". */
  datatype StatValue = Count(n: int) | Text(s: string)

  datatype Automation = Automation(
    id: int,
    name: string,
    platform: string,
    status: string,
    schedule: string,
    lastRun: string,
    nextRun: string,
    description: string,
    stats: seq<(string, StatValue)>)

  /** The fields of the "new automation" form. */
  datatype AutomationForm = AutomationForm(name: string, platform: string, description: string, schedule: string)

  datatype FormField = NameField | PlatformField | DescriptionField | ScheduleField

  function AutomationId(a: Automation): int { a.id }

  /** The form as it is first shown and as every submission leaves it. */
  const DefaultForm := AutomationForm("", "Instagram", "", "Daily")

  /** The five records the screen starts with. */
  function InitialAutomations(): seq<Automation>
  {
    [ Automation(1, "Instagram Follow/Unfollow", "Instagram", "active", "Daily at 10:00 AM", "2 hours ago",
                 "Tomorrow at 10:00 AM",
                 "Automatically follows targeted accounts and unfollows non-followers after 3 days",
                 [("followsToday", Count(28)), ("unfollowsToday", Count(15)),
                  ("totalFollowed", Count(1243)), ("totalUnfollowed", Count(876))]),
      Automation(2, "Twitter Engagement", "Twitter", "active", "Every 2 hours", "35 minutes ago",
                 "In 1 hour 25 minutes",
                 "Likes and retweets content from specified hashtags and accounts",
                 [("likesToday", Count(42)), ("retweetsToday", Count(12)),
                  ("totalLikes", Count(2156)), ("totalRetweets", Count(543))]),
      Automation(3, "LinkedIn Connection Requests", "LinkedIn", "paused", "Weekdays at 9:00 AM", "2 days ago",
                 "Paused",
                 "Sends personalized connection requests to people in your target industry",
                 [("requestsToday", Count(0)), ("acceptedToday", Count(3)),
                  ("totalRequests", Count(450)), ("totalAccepted", Count(312))]),
      Automation(4, "TikTok Comment Responder", "TikTok", "active", "Every hour", "48 minutes ago",
                 "In 12 minutes",
                 "Automatically responds to comments on your TikTok videos using AI",
                 [("responsesToday", Count(17)), ("engagementRate", Text("24%")),
                  ("totalResponses", Count(876)), ("avgResponseTime", Text("3 min"))]),
      Automation(5, "Content Scheduler", "Multiple", "active", "Custom schedule", "6 hours ago",
                 "Today at 6:00 PM",
                 "Posts pre-planned content across multiple platforms based on your content calendar",
                 [("postsToday", Count(3)), ("scheduledNext", Count(5)),
                  ("totalPosts", Count(127)), ("engagementAvg", Text("18%"))]) ]
  }

  /** No two records share an id (the screen uses ids as keys and as handler arguments). */
  ghost predicate DistinctIds(s: seq<Automation>)
  {
    forall i, j :: 0 <= i < j < |s| ==> s[i].id != s[j].id
  }

  // ---------------------------------------------------------------------------
  // Dropdown

  /** Clicking a card's menu button: closes it when it is the open one, otherwise opens it (closing any other). */
  function ToggledDropdown(open: Option<int>, id: int): (r: Option<int>)
    ensures r == None <==> open == Some(id)
    ensures r != None ==> r == Some(id)
  {
    if open == Some(id) then None else Some(id)
  }

  /** Clicking the same menu button twice restores the previous dropdown exactly when no other card's dropdown was open. */
  lemma ToggledDropdownTwice(open: Option<int>, id: int)
    ensures ToggledDropdown(ToggledDropdown(open, id), id) == open <==> (open == None || open == Some(id))
  {
  }

  // ---------------------------------------------------------------------------
  // Pause / resume

  /** One record paused (if it was active) or resumed (otherwise); pausing shows "Paused" as the next run. */
  function Toggled(a: Automation): (r: Automation)
    ensures r.status == "paused" <==> a.status == "active"
    ensures r.status == "active" || r.status == "paused"
    ensures r.status == "paused" ==> r.nextRun == "Paused"
    ensures r.status == "active" ==> r.nextRun == a.nextRun
    ensures r == a.(status := r.status, nextRun := r.nextRun)
  {
    var newStatus := if a.status == "active" then "paused" else "active";
    a.(status := newStatus, nextRun := if newStatus == "paused" then "Paused" else a.nextRun)
  }

  /** Pausing and resuming (in either order) always leaves "Paused" as the next run. */
  lemma ToggledTwiceNextRun(a: Automation)
    ensures Toggled(Toggled(a)).nextRun == "Paused"
  {
  }

  /**
   * Toggling twice is a round trip exactly when the status was "active" or "paused" and the next
   * run already read "Paused": the next run of an active automation is lost on the way.
   */
  lemma ToggledTwiceRoundTrip(a: Automation)
    ensures Toggled(Toggled(a)) == a <==> (a.status == "active" || a.status == "paused") && a.nextRun == "Paused"
  {
  }

  /** The list after pausing or resuming the automation(s) with id `id`. */
  function ToggleStatusById(s: seq<Automation>, id: int): (r: seq<Automation>)
    ensures |r| == |s|
    ensures forall i :: 0 <= i < |s| && s[i].id != id ==> r[i] == s[i]
    ensures forall i :: 0 <= i < |s| && s[i].id == id ==> r[i] == Toggled(s[i])
  {
    UpdateId(s, AutomationId, id, Toggled)
  }

  /** Toggling keeps every id where it was, so distinct ids stay distinct. */
  lemma ToggleStatusKeepsIds(s: seq<Automation>, id: int)
    ensures Ids(ToggleStatusById(s, id), AutomationId) == Ids(s, AutomationId)
    ensures DistinctIds(s) ==> DistinctIds(ToggleStatusById(s, id))
  {
    UpdateIdKeepsIds(s, AutomationId, id, Toggled);
  }

  /**
   * Toggling the same automation twice restores its status (when it was "active" or "paused") but
   * leaves "Paused" as its next run; every other record is untouched.
   */
  lemma ToggleStatusByIdTwice(s: seq<Automation>, id: int)
    ensures var r := ToggleStatusById(ToggleStatusById(s, id), id);
      |r| == |s| &&
      forall i :: 0 <= i < |s| ==>
        if s[i].id != id then r[i] == s[i]
        else r[i].nextRun == "Paused" &&
             ((s[i].status == "active" || s[i].status == "paused") ==> r[i].status == s[i].status) &&
             r[i] == s[i].(status := r[i].status, nextRun := "Paused")
  {
  }

  // ---------------------------------------------------------------------------
  // Delete

  /** The list after deleting the automation(s) with id `id`. */
  function DeleteById(s: seq<Automation>, id: int): (r: seq<Automation>)
    ensures forall a :: a in r <==> a in s && a.id != id
  {
    RemoveId(s, AutomationId, id)
  }

  /**
   * Deleting removes exactly the records with that id (every copy), keeps the others in their
   * original order, changes nothing for an absent id, and keeps ids distinct.
   */
  lemma DeleteByIdSpec(s: seq<Automation>, id: int)
    ensures IsSubsequence(DeleteById(s, id), s)
    ensures forall a :: multiset(DeleteById(s, id))[a] == if a.id == id then 0 else multiset(s)[a]
    ensures (forall a :: a in s ==> a.id != id) ==> DeleteById(s, id) == s
    ensures DistinctIds(s) ==> DistinctIds(DeleteById(s, id))
  {
    RemoveIdKeepsOrder(s, AutomationId, id);
    RemoveIdCounts(s, AutomationId, id);
    if forall a :: a in s ==> a.id != id {
      RemoveAbsentId(s, AutomationId, id);
    }
    if DistinctIds(s) {
      SubsequenceKeepsDistinct(DeleteById(s, id), s);
    }
  }

  lemma {:induction false} SubsequenceKeepsDistinct(r: seq<Automation>, s: seq<Automation>)
    requires IsSubsequence(r, s) && DistinctIds(s)
    ensures DistinctIds(r)
    decreases |s|
  {
    if r != [] {
      assert s != [];
      assert DistinctIds(s[1..]) by {
        forall i, j | 0 <= i < j < |s[1..]| ensures s[1..][i].id != s[1..][j].id {
          assert s[1..][i] == s[i + 1] && s[1..][j] == s[j + 1];
        }
      }
      if r[0] == s[0] && IsSubsequence(r[1..], s[1..]) {
        SubsequenceKeepsDistinct(r[1..], s[1..]);
        SubsequenceMembers(r[1..], s[1..]);
        forall j | 0 < j < |r| ensures r[0].id != r[j].id {
          assert r[j] == r[1..][j - 1];
          assert r[j] in s[1..];
          var k :| 0 <= k < |s[1..]| && s[1..][k] == r[j];
          assert s[k + 1] == r[j];
        }
      } else {
        SubsequenceKeepsDistinct(r, s[1..]);
      }
    }
  }

  lemma {:induction false} SubsequenceMembers(r: seq<Automation>, s: seq<Automation>)
    requires IsSubsequence(r, s)
    ensures forall a :: a in r ==> a in s
    decreases |s|
  {
    if r != [] {
      if r[0] == s[0] && IsSubsequence(r[1..], s[1..]) {
        SubsequenceMembers(r[1..], s[1..]);
        assert forall a :: a in r ==> a == r[0] || a in r[1..];
      } else {
        SubsequenceMembers(r, s[1..]);
      }
    }
  }

  // ---------------------------------------------------------------------------
  // New automation

  /** The largest id in a non-empty list. */
  function MaxId(s: seq<Automation>): (m: int)
    requires s != []
    ensures forall a :: a in s ==> a.id <= m
    ensures exists a :: a in s && a.id == m
  {
    if |s| == 1 then s[0].id
    else
      var rest := MaxId(s[1..]);
      assert forall a :: a in s ==> a == s[0] || a in s[1..];
      if s[0].id >= rest then s[0].id else rest
  }

  /**
   * The id of a submitted automation: one more than the largest id on a non-empty list, and 1 on an
   * empty list (see the finding in README.md on what the screen computes there).
   */
  function NextId(s: seq<Automation>): (r: int)
    ensures forall a :: a in s ==> a.id < r
    ensures s != [] ==> exists a :: a in s && a.id == r - 1
  {
    if s == [] then 1 else MaxId(s) + 1
  }

  /** The record a submission appends. */
  function NewAutomation(form: AutomationForm, id: int): (a: Automation)
    ensures a.id == id && a.status == "active" && a.lastRun == "Never" && a.nextRun == "Today at 3:00 PM"
    ensures a.name == form.name && a.platform == form.platform
    ensures a.description == form.description && a.schedule == form.schedule
    ensures a.stats == [("actionsToday", Count(0)), ("totalActions", Count(0))]
  {
    Automation(id, form.name, form.platform, "active", form.schedule, "Never", "Today at 3:00 PM",
               form.description, [("actionsToday", Count(0)), ("totalActions", Count(0))])
  }

  /** The list after submitting `form`: the old list, then one new active, never-run record whose id is one past the largest. */
  function Submitted(s: seq<Automation>, form: AutomationForm): (r: seq<Automation>)
    ensures |r| == |s| + 1 && r[..|s|] == s
    ensures r[|s|].id == NextId(s) && forall a :: a in s ==> a.id < r[|s|].id
    ensures r[|s|].status == "active" && r[|s|].lastRun == "Never" && r[|s|].nextRun == "Today at 3:00 PM"
    ensures r[|s|].stats == [("actionsToday", Count(0)), ("totalActions", Count(0))]
    ensures r[|s|].name == form.name && r[|s|].platform == form.platform
    ensures r[|s|].description == form.description && r[|s|].schedule == form.schedule
  {
    s + [NewAutomation(form, NextId(s))]
  }

  /** Submitting keeps ids distinct. */
  lemma SubmittedKeepsDistinct(s: seq<Automation>, form: AutomationForm)
    requires DistinctIds(s)
    ensures DistinctIds(Submitted(s, form))
  {
  }

  /** The value of one form field. */
  function FieldValue(form: AutomationForm, field: FormField): string
  {
    match field
    case NameField => form.name
    case PlatformField => form.platform
    case DescriptionField => form.description
    case ScheduleField => form.schedule
  }

  /** The form after typing `value` into one field (`{...newAutomation, [field]: value}`). */
  function WithField(form: AutomationForm, field: FormField, value: string): (r: AutomationForm)
    ensures FieldValue(r, field) == value
    ensures forall g :: g != field ==> FieldValue(r, g) == FieldValue(form, g)
  {
    match field
    case NameField => form.(name := value)
    case PlatformField => form.(platform := value)
    case DescriptionField => form.(description := value)
    case ScheduleField => form.(schedule := value)
  }

  // ---------------------------------------------------------------------------
  // Id computation as the screen writes it (see README.md, Findings)

  /** A JavaScript number as far as `Math.max(...ids) + 1` needs one: an integer or minus infinity. */
  datatype JsNumber = NegInfinity | Finite(n: int)

  /** `Math.max` over a list of numbers: minus infinity when the list is empty. */
  function JsMax(xs: seq<JsNumber>): JsNumber
  {
    if xs == [] then NegInfinity
    else
      var rest := JsMax(xs[1..]);
      match (xs[0], rest)
      case (NegInfinity, _) => rest
      case (_, NegInfinity) => xs[0]
      case (Finite(a), Finite(b)) => Finite(if a >= b then a else b)
  }

  function JsPlusOne(x: JsNumber): JsNumber
  {
    match x
    case NegInfinity => NegInfinity
    case Finite(n) => Finite(n + 1)
  }

  /** The id the screen gives a new automation: `Math.max(...automations.map(a => a.id)) + 1`. */
  function NewIdAsWritten(ids: seq<JsNumber>): (r: JsNumber)
    ensures ids == [] ==> r == NegInfinity
  {
    JsPlusOne(JsMax(ids))
  }

  function FiniteIds(s: seq<Automation>): (r: seq<JsNumber>)
    ensures |r| == |s|
  {
    if s == [] then [] else [Finite(s[0].id)] + FiniteIds(s[1..])
  }

  /** On a non-empty list the screen's computation and NextId agree. */
  lemma {:induction false} NewIdAsWrittenAgrees(s: seq<Automation>)
    requires s != []
    ensures NewIdAsWritten(FiniteIds(s)) == Finite(NextId(s))
  {
    if |s| > 1 {
      NewIdAsWrittenAgrees(s[1..]);
      assert FiniteIds(s)[1..] == FiniteIds(s[1..]);
    } else {
      assert FiniteIds(s) == [Finite(s[0].id)];
      assert JsMax(FiniteIds(s)[1..]) == NegInfinity;
    }
  }

  /**
   * Once every automation has been deleted, the next submission gets id minus infinity, and so
   * does the one after it: two records with the same id.
   */
  lemma EmptiedListRepeatsIds()
    ensures NewIdAsWritten([]) == NegInfinity
    ensures NewIdAsWritten([NewIdAsWritten([])]) == NewIdAsWritten([])
  {
  }

  // ---------------------------------------------------------------------------
  // Statistic labels: key.replace(/([A-Z])/g, ' $1').replace(/^./, c => c.toUpperCase())

  function CountUpper(s: string): nat
  {
    if s == [] then 0 else (if IsUpper(s[0]) then 1 else 0) + CountUpper(s[1..])
  }

  /** A space inserted before every upper-case letter. */
  function SpaceBeforeUpper(s: string): (r: string)
    ensures |r| == |s| + CountUpper(s)
    ensures forall i :: 0 <= i < |r| && IsUpper(r[i]) ==> 0 < i && r[i - 1] == ' '
    ensures |r| > 0 ==> |s| > 0 && (r[0] == s[0] || (r[0] == ' ' && IsUpper(s[0])))
  {
    if s == [] then []
    else
      var rest := SpaceBeforeUpper(s[1..]);
      var r := (if IsUpper(s[0]) then [' ', s[0]] else [s[0]]) + rest;
      assert forall i :: 0 <= i < |rest| ==> r[i + |r| - |rest|] == rest[i];
      r
  }

  /** The first character upper-cased. */
  function CapitalizeFirst(s: string): (r: string)
    ensures |r| == |s|
    ensures |s| > 0 ==> r[0] == ToUpper(s[0]) && r[1..] == s[1..]
  {
    if s == [] then [] else [ToUpper(s[0])] + s[1..]
  }

  /**
   * The label shown for a statistic key: one character longer per upper-case letter, every upper-case
   * letter after the first position preceded by a space, and no lower-case letter first.
   */
  function StatLabel(key: string): (r: string)
    ensures |r| == |key| + CountUpper(key)
    ensures forall i :: 0 < i < |r| && IsUpper(r[i]) ==> r[i - 1] == ' '
    ensures |r| > 0 ==> !IsLower(r[0])
  {
    var spaced := SpaceBeforeUpper(key);
    var r := CapitalizeFirst(spaced);
    assert forall i :: 0 < i < |r| ==> r[i] == spaced[i];
    r
  }

  /** Removes each space that directly precedes an upper-case letter. */
  function DropSpaceBeforeUpper(s: string): string
  {
    if s == [] then []
    else if |s| >= 2 && s[0] == ' ' && IsUpper(s[1]) then [s[1]] + DropSpaceBeforeUpper(s[2..])
    else [s[0]] + DropSpaceBeforeUpper(s[1..])
  }

  /** The inserted spaces are exactly the ones dropped again: an original space is never followed by a capital. */
  lemma {:induction false} SpaceBeforeUpperRoundTrip(key: string)
    ensures DropSpaceBeforeUpper(SpaceBeforeUpper(key)) == key
  {
    if key != [] {
      var rest := SpaceBeforeUpper(key[1..]);
      SpaceBeforeUpperRoundTrip(key[1..]);
      assert rest != [] ==> !IsUpper(rest[0]);
      if IsUpper(key[0]) {
        var t := [' ', key[0]] + rest;
        assert t[2..] == rest;
      } else {
        var t := [key[0]] + rest;
        assert t[1..] == rest;
      }
    }
  }

  /**
   * The label's letters are the key's: dropping the inserted spaces gives back the key with its
   * first character upper-cased.
   */
  lemma {:induction false} StatLabelContents(key: string)
    ensures DropSpaceBeforeUpper(StatLabel(key)) == CapitalizeFirst(key)
  {
    if key != [] {
      var c, rest := key[0], SpaceBeforeUpper(key[1..]);
      assert rest != [] ==> !IsUpper(rest[0]);
      SpaceBeforeUpperRoundTrip(key);
      if IsUpper(c) {
        assert SpaceBeforeUpper(key) == [' ', c] + rest;
        assert StatLabel(key) == SpaceBeforeUpper(key);
        assert CapitalizeFirst(key) == key;
      } else {
        SpaceBeforeUpperRoundTrip(key[1..]);
        var shown := [ToUpper(c)] + rest;
        assert SpaceBeforeUpper(key) == [c] + rest;
        assert StatLabel(key) == shown;
        assert shown[1..] == rest;
        assert DropSpaceBeforeUpper(shown) == [ToUpper(c)] + DropSpaceBeforeUpper(rest);
      }
    }
  }

  // ---------------------------------------------------------------------------
  // The screen's state

  class AutomationsPage {
    var automations: seq<Automation>
    var showDropdown: Option<int>
    var showNewAutomationModal: bool
    var newAutomation: AutomationForm

    /** The page's invariant: no two automations share an id. */
    ghost predicate Valid()
      reads this`automations
    {
      DistinctIds(automations)
    }

    constructor ()
      ensures Valid()
      ensures automations == InitialAutomations()
      ensures showDropdown == None && !showNewAutomationModal && newAutomation == DefaultForm
    {
      automations := InitialAutomations();
      showDropdown := None;
      showNewAutomationModal := false;
      newAutomation := DefaultForm;
    }

    method ToggleDropdown(id: int)
      requires Valid()
      modifies this`showDropdown
      ensures Valid()
      ensures showDropdown == ToggledDropdown(old(showDropdown), id)
    {
      if showDropdown == Some(id) {
        showDropdown := None;
      } else {
        showDropdown := Some(id);
      }
    }

    method ToggleAutomationStatus(id: int)
      requires Valid()
      modifies this`automations, this`showDropdown
      ensures automations == ToggleStatusById(old(automations), id)
      ensures showDropdown == None
      ensures Valid()
    {
      ToggleStatusKeepsIds(automations, id);
      automations := UpdateId(automations, AutomationId, id, Toggled);
      showDropdown := None;
    }

    method DeleteAutomation(id: int)
      requires Valid()
      modifies this`automations, this`showDropdown
      ensures automations == DeleteById(old(automations), id)
      ensures showDropdown == None
      ensures Valid()
    {
      DeleteByIdSpec(automations, id);
      automations := RemoveId(automations, AutomationId, id);
      showDropdown := None;
    }

    method HandleNewAutomationSubmit()
      requires Valid()
      modifies this`automations, this`newAutomation, this`showNewAutomationModal
      ensures automations == Submitted(old(automations), old(newAutomation))
      ensures Valid()
      ensures newAutomation == DefaultForm && !showNewAutomationModal
    {
      SubmittedKeepsDistinct(automations, newAutomation);
      var newId := NextId(automations);
      automations := automations + [NewAutomation(newAutomation, newId)];
      newAutomation := DefaultForm;
      showNewAutomationModal := false;
    }

    method SetFormField(field: FormField, value: string)
      requires Valid()
      modifies this`newAutomation
      ensures Valid()
      ensures newAutomation == WithField(old(newAutomation), field, value)
    {
      newAutomation := WithField(newAutomation, field, value);
    }

    method OpenNewAutomationModal()
      requires Valid()
      modifies this`showNewAutomationModal
      ensures Valid()
      ensures showNewAutomationModal
    {
      showNewAutomationModal := true;
    }

    method CloseNewAutomationModal()
      requires Valid()
      modifies this`showNewAutomationModal
      ensures Valid()
      ensures !showNewAutomationModal
    {
      showNewAutomationModal := false;
    }
  }
}
