/**
 * The settings screen (src/pages/Settings.jsx): profile, password, subscription and
 * notification-preference records edited one field at a time, a password-change check, a table
 * of connected social accounts, and the initials shown in the profile avatar.
 */
module Settings {
  import opened Optional
  import opened IdLists

  // ---------------------------------------------------------------------------
  // Single-field records

  datatype Profile = Profile(name: string, email: string, phone: string, timezone: string, bio: string)
  /** The profile the screen starts with. */
  const InitialProfile := Profile("John Doe", "john.doe@example.com", "+1 (555) 123-4567", "America/New_York",
                                  "Digital marketing specialist with a focus on social media growth and automation.")

  datatype ProfileField = Name | Email | Phone | Timezone | Bio

  function ProfileValue(p: Profile, f: ProfileField): string
  {
    match f
    case Name => p.name
    case Email => p.email
    case Phone => p.phone
    case Timezone => p.timezone
    case Bio => p.bio
  }

  /** The profile after an edit of input `f` (`{...profile, [name]: value}`): only that field changes. */
  function WithProfileField(p: Profile, f: ProfileField, value: string): (r: Profile)
    ensures ProfileValue(r, f) == value
    ensures forall g :: g != f ==> ProfileValue(r, g) == ProfileValue(p, g)
  {
    match f
    case Name => p.(name := value)
    case Email => p.(email := value)
    case Phone => p.(phone := value)
    case Timezone => p.(timezone := value)
    case Bio => p.(bio := value)
  }

  /** The password form; `newPassword` is the field the screen calls `new`. */
  datatype Password = Password(current: string, newPassword: string, confirm: string)
  datatype PasswordField = Current | New | Confirm

  const EmptyPassword := Password("", "", "")

  function PasswordValue(p: Password, f: PasswordField): string
  {
    match f
    case Current => p.current
    case New => p.newPassword
    case Confirm => p.confirm
  }

  /** The password form after an edit of input `f`: only that field changes. */
  function WithPasswordField(p: Password, f: PasswordField, value: string): (r: Password)
    ensures PasswordValue(r, f) == value
    ensures forall g :: g != f ==> PasswordValue(r, g) == PasswordValue(p, g)
  {
    match f
    case Current => p.(current := value)
    case New => p.(newPassword := value)
    case Confirm => p.(confirm := value)
  }

  datatype PaymentMethod = PaymentMethod(kind: string, last4: string, expiry: string)
  datatype Subscription = Subscription(plan: string, billingCycle: string, nextBillingDate: string, payment: PaymentMethod)

  /** Choosing a plan changes the plan and nothing else. */
  function WithPlan(s: Subscription, plan: string): (r: Subscription)
    ensures r.plan == plan
    ensures r.billingCycle == s.billingCycle && r.nextBillingDate == s.nextBillingDate && r.payment == s.payment
  {
    s.(plan := plan)
  }

  /** Choosing a billing cycle changes the cycle and nothing else. */
  function WithBillingCycle(s: Subscription, cycle: string): (r: Subscription)
    ensures r.billingCycle == cycle
    ensures r.plan == s.plan && r.nextBillingDate == s.nextBillingDate && r.payment == s.payment
  {
    s.(billingCycle := cycle)
  }

  // ---------------------------------------------------------------------------
  // Password change

  datatype PasswordOutcome = Mismatch | TooShort | Changed

  /** The checks of a password change, in order: the two new entries must agree, then be at least 8 long. */
  function CheckPassword(p: Password): (r: PasswordOutcome)
    ensures r == Mismatch <==> p.newPassword != p.confirm
    ensures r == TooShort <==> p.newPassword == p.confirm && |p.newPassword| < 8
    ensures r == Changed <==> p.newPassword == p.confirm && |p.newPassword| >= 8
  {
    if p.newPassword != p.confirm then Mismatch
    else if |p.newPassword| < 8 then TooShort
    else Changed
  }

  /** A toast: a success or an error notice with its text. */
  datatype Notice = Success(text: string) | Error(text: string)

  /** The toast each outcome raises: an error for a failed check, a success only for a change. */
  function OutcomeToast(o: PasswordOutcome): (t: Notice)
    ensures t.Success? <==> o == Changed
    ensures o == Mismatch ==> t == Error("New passwords do not match!")
    ensures o == TooShort ==> t == Error("Password must be at least 8 characters!")
    ensures o == Changed ==> t == Success("Password changed successfully!")
  {
    match o
    case Mismatch => Error("New passwords do not match!")
    case TooShort => Error("Password must be at least 8 characters!")
    case Changed => Success("Password changed successfully!")
  }

  /** Each outcome has its own text, so the toast tells the user which check failed. */
  lemma OutcomeToastsDiffer(o1: PasswordOutcome, o2: PasswordOutcome)
    ensures OutcomeToast(o1).text == OutcomeToast(o2).text ==> o1 == o2
  {
  }

  // ---------------------------------------------------------------------------
  // Notification preferences: channel ("email", "push") to setting to on/off

  type Prefs = map<string, map<string, bool>>

  function InitialPrefs(): Prefs
  {
    map["email" := map["automationResults" := true, "weeklyReports" := true, "tips" := false],
        "push" := map["automationResults" := true, "weeklyReports" := false, "tips" := true]]
  }

  /** The stored flag, if any. */
  function Lookup(p: Prefs, channel: string, setting: string): Option<bool>
  {
    if channel in p && setting in p[channel] then Some(p[channel][setting]) else None
  }

  /** Whether the switch shows as on: a missing setting reads as off. */
  predicate Enabled(p: Prefs, channel: string, setting: string)
  {
    Lookup(p, channel, setting) == Some(true)
  }

  /**
   * The preferences after flipping one switch; None when the channel is absent, where the screen's
   * `notifications[type][setting]` throws and no update happens.
   */
  function ToggleFlag(p: Prefs, channel: string, setting: string): (r: Option<Prefs>)
    ensures r == None <==> channel !in p
    ensures r != None ==> r.value.Keys == p.Keys
    ensures r != None ==> Lookup(r.value, channel, setting) == Some(!Enabled(p, channel, setting))
    ensures r != None ==> forall c, s :: (c != channel || s != setting) ==> Lookup(r.value, c, s) == Lookup(p, c, s)
  {
    if channel !in p then None
    else
      var inner := p[channel];
      Some(p[channel := inner[setting := !(setting in inner && inner[setting])]])
  }

  /** Flipping the same switch twice restores the preferences exactly when that setting was stored. */
  lemma ToggleFlagTwice(p: Prefs, channel: string, setting: string)
    requires channel in p
    ensures ToggleFlag(ToggleFlag(p, channel, setting).value, channel, setting) == Some(p)
            <==> setting in p[channel]
  {
    var q := ToggleFlag(p, channel, setting).value;
    var r := ToggleFlag(q, channel, setting).value;
    if setting in p[channel] {
      assert r[channel] == p[channel];
      assert r == p;
    } else {
      assert setting in r[channel];
    }
  }

  // ---------------------------------------------------------------------------
  // Connected accounts

  datatype Account = Account(id: int, platform: string, username: string, connected: bool, status: string)

  function AccountId(a: Account): int { a.id }

  /** The table's implicit invariant: an account is connected exactly when its status is "active". */
  predicate Consistent(a: Account) { a.connected <==> a.status == "active" }

  predicate AllConsistent(s: seq<Account>) { forall a :: a in s ==> Consistent(a) }

  function InitialAccounts(): seq<Account>
  {
    [ Account(1, "instagram", "johndoe_official", true, "active"),
      Account(2, "tiktok", "johndoe_tiktok", true, "active"),
      Account(3, "facebook", "John Doe", false, "disconnected") ]
  }

  lemma InitialAccountsConsistent()
    ensures AllConsistent(InitialAccounts())
  {
  }

  function Disconnected(a: Account): Account { a.(connected := false, status := "disconnected") }
  function Reconnected(a: Account): Account { a.(connected := true, status := "active") }

  /** The table after disconnecting account `id`: that record reads (false, "disconnected"), all others are untouched. */
  function DisconnectById(s: seq<Account>, id: int): (r: seq<Account>)
    ensures |r| == |s|
    ensures forall i :: 0 <= i < |s| && s[i].id != id ==> r[i] == s[i]
    ensures forall i :: 0 <= i < |s| && s[i].id == id ==>
      !r[i].connected && r[i].status == "disconnected" &&
      r[i].id == s[i].id && r[i].platform == s[i].platform && r[i].username == s[i].username
    ensures AllConsistent(s) ==> AllConsistent(r)
  {
    var r := UpdateId(s, AccountId, id, Disconnected);
    assert forall a :: a in r ==> exists i :: 0 <= i < |s| && r[i] == a;
    r
  }

  /** The table after reconnecting account `id`: that record reads (true, "active"), all others are untouched. */
  function ReconnectById(s: seq<Account>, id: int): (r: seq<Account>)
    ensures |r| == |s|
    ensures forall i :: 0 <= i < |s| && s[i].id != id ==> r[i] == s[i]
    ensures forall i :: 0 <= i < |s| && s[i].id == id ==>
      r[i].connected && r[i].status == "active" &&
      r[i].id == s[i].id && r[i].platform == s[i].platform && r[i].username == s[i].username
    ensures AllConsistent(s) ==> AllConsistent(r)
  {
    var r := UpdateId(s, AccountId, id, Reconnected);
    assert forall a :: a in r ==> exists i :: 0 <= i < |s| && r[i] == a;
    r
  }

  /** The table after removing account `id`: exactly the records with other ids remain. */
  function RemoveAccountById(s: seq<Account>, id: int): (r: seq<Account>)
    ensures forall a :: a in r <==> a in s && a.id != id
    ensures AllConsistent(s) ==> AllConsistent(r)
  {
    RemoveId(s, AccountId, id)
  }

  /** Removal keeps the remaining accounts in their order, drops every copy with that id, and is idempotent. */
  lemma RemoveAccountSpec(s: seq<Account>, id: int)
    ensures IsSubsequence(RemoveAccountById(s, id), s)
    ensures forall a :: multiset(RemoveAccountById(s, id))[a] == if a.id == id then 0 else multiset(s)[a]
    ensures RemoveAccountById(RemoveAccountById(s, id), id) == RemoveAccountById(s, id)
  {
    RemoveIdKeepsOrder(s, AccountId, id);
    RemoveIdCounts(s, AccountId, id);
    RemoveIdIdempotent(s, AccountId, id);
  }

  /** The account a completed "connect" adds; its id is the clock reading the caller supplies. */
  function NewAccount(platform: string, now: int): (a: Account)
    ensures a.id == now && a.platform == platform && a.username == "johndoe_" + platform
    ensures a.connected && a.status == "active" && Consistent(a)
  {
    Account(now, platform, "johndoe_" + platform, true, "active")
  }

  /** The table after connecting `platform`: the old table, then exactly one connected, active account. */
  function ConnectAccount(s: seq<Account>, platform: string, now: int): (r: seq<Account>)
    ensures |r| == |s| + 1 && r[..|s|] == s
    ensures r[|s|].id == now && r[|s|].platform == platform && r[|s|].username == "johndoe_" + platform
    ensures r[|s|].connected && r[|s|].status == "active"
    ensures AllConsistent(s) ==> AllConsistent(r)
  {
    s + [NewAccount(platform, now)]
  }

  // ---------------------------------------------------------------------------
  // Avatar initials: name.split(' ').map(n => n[0]).join('')

  /** The pieces of `s` between single spaces, as `split(' ')` returns them (empty pieces included). */
  function Split(s: string): (r: seq<string>)
    ensures |r| >= 1
  {
    if s == [] then [[]]
    else
      var rest := Split(s[1..]);
      if s[0] == ' ' then [[]] + rest
      else [[s[0]] + rest[0]] + rest[1..]
  }

  /** No piece contains a space. */
  lemma {:induction false} SplitNoSpace(s: string)
    ensures forall i :: 0 <= i < |Split(s)| ==> ' ' !in Split(s)[i]
  {
    if s != [] {
      SplitNoSpace(s[1..]);
      var rest := Split(s[1..]);
      if s[0] != ' ' {
        assert ' ' !in rest[0];
        assert forall i :: 1 <= i < |Split(s)| ==> Split(s)[i] == rest[i];
      } else {
        assert forall i :: 1 <= i < |Split(s)| ==> Split(s)[i] == rest[i - 1];
      }
    }
  }

  /** Joining the pieces with single spaces gives back the string. */
  lemma {:induction false} SplitJoin(s: string)
    ensures Join(Split(s)) == s
  {
    if s != [] {
      var c, t := s[0], s[1..];
      assert s == [c] + t;
      SplitJoin(t);
      var pieces := Split(t);
      if c == ' ' {
        SplitConsSpace(t);
        JoinConsSpace(pieces);
      } else {
        SplitConsWord(c, t);
        JoinConsWord(c, pieces);
      }
    }
  }

  lemma {:induction false} JoinConsSpace(pieces: seq<string>)
    requires |pieces| >= 1
    ensures Join([[]] + pieces) == [' '] + Join(pieces)
  {
    assert ([[]] + pieces)[1..] == pieces;
  }

  lemma {:induction false} JoinConsWord(c: char, pieces: seq<string>)
    requires |pieces| >= 1
    ensures Join([[c] + pieces[0]] + pieces[1..]) == [c] + Join(pieces)
  {
    var joined := [[c] + pieces[0]] + pieces[1..];
    if |pieces| > 1 {
      assert joined[1..] == pieces[1..];
    }
  }

  /** The pieces joined with single spaces. */
  function Join(ws: seq<string>): string
  {
    if ws == [] then []
    else if |ws| == 1 then ws[0]
    else ws[0] + " " + Join(ws[1..])
  }

  /** The first character of every non-empty piece (`n[0]` of an empty piece is undefined, which `join` prints as nothing). */
  function FirstLetters(ws: seq<string>): (r: string)
    ensures |r| <= |ws|
  {
    if ws == [] then []
    else (if ws[0] == [] then [] else [ws[0][0]]) + FirstLetters(ws[1..])
  }

  /** A single piece contributes its first character, or nothing when it is empty. */
  lemma FirstLettersOfPiece(w: string)
    ensures FirstLetters([w]) == if w == [] then [] else [w[0]]
  {
    assert [w][1..] == [];
  }

  lemma {:induction false} FirstLettersNoSpace(ws: seq<string>)
    requires forall i :: 0 <= i < |ws| ==> ' ' !in ws[i]
    ensures ' ' !in FirstLetters(ws)
  {
    if ws != [] {
      assert ' ' !in ws[0];
      FirstLettersNoSpace(ws[1..]);
    }
  }

  /** The avatar text: never contains a space, never longer than the name. */
  function Initials(name: string): (r: string)
    ensures ' ' !in r
    ensures |r| <= |name|
  {
    var ws := Split(name);
    SplitNoSpace(name);
    FirstLettersNoSpace(ws);
    SplitSize(name);
    FirstLetters(ws)
  }

  lemma {:induction false} SplitSize(s: string)
    ensures |FirstLetters(Split(s))| <= |s|
  {
    if s != [] {
      SplitSize(s[1..]);
      var rest := Split(s[1..]);
      if s[0] == ' ' {
        assert Split(s)[1..] == rest;
      } else {
        assert Split(s)[1..] == rest[1..];
        assert rest[0] == [] ==> FirstLetters(rest) == FirstLetters(rest[1..]);
      }
    }
  }

  /** One step of Split on a string that starts with a space. */
  lemma {:induction false} SplitConsSpace(t: string)
    ensures Split([' '] + t) == [[]] + Split(t)
  {
    assert ([' '] + t)[1..] == t;
  }

  /** One step of Split on a string that starts with another character. */
  lemma {:induction false} SplitConsWord(c: char, t: string)
    requires c != ' '
    ensures Split([c] + t) == [[c] + Split(t)[0]] + Split(t)[1..]
  {
    assert ([c] + t)[0] == c && ([c] + t)[1..] == t;
  }

  /** Splitting at an inserted space splits each side separately. */
  lemma {:induction false} SplitConcat(a: string, b: string)
    ensures Split(a + [' '] + b) == Split(a) + Split(b)
    decreases |a|
  {
    if a == [] {
      assert a + [' '] + b == [' '] + b;
      SplitConsSpace(b);
    } else {
      var tail := a[1..] + [' '] + b;
      SplitConcat(a[1..], b);
      assert a + [' '] + b == [a[0]] + tail;
      assert a == [a[0]] + a[1..];
      SplitPrepend(a[0], a[1..], tail, Split(b));
    }
  }

  /** Prepending a character to two strings whose splits differ by a common suffix keeps that suffix. */
  lemma {:induction false} SplitPrepend(c: char, t: string, tail: string, right: seq<string>)
    requires Split(tail) == Split(t) + right
    ensures Split([c] + tail) == Split([c] + t) + right
  {
    if c == ' ' {
      SplitConsSpace(tail);
      SplitConsSpace(t);
    } else {
      SplitConsWord(c, tail);
      SplitConsWord(c, t);
      var left, st := Split(t), Split(tail);
      assert st[0] == left[0];
      assert st[1..] == left[1..] + right;
    }
  }

  lemma {:induction false} FirstLettersConcat(u: seq<string>, v: seq<string>)
    ensures FirstLetters(u + v) == FirstLetters(u) + FirstLetters(v)
  {
    if u == [] {
      assert u + v == v;
    } else {
      FirstLettersConcat(u[1..], v);
      var h := if u[0] == [] then [] else [u[0][0]];
      assert (u + v)[0] == u[0];
      assert (u + v)[1..] == u[1..] + v;
      calc {
        FirstLetters(u + v);
        h + FirstLetters(u[1..] + v);
        h + (FirstLetters(u[1..]) + FirstLetters(v));
        (h + FirstLetters(u[1..])) + FirstLetters(v);
        FirstLetters(u) + FirstLetters(v);
      }
    }
  }

  /** The initials of two space-separated parts are the initials of each, in order. */
  lemma InitialsConcat(a: string, b: string)
    ensures Initials(a + " " + b) == Initials(a) + Initials(b)
  {
    assert a + " " + b == a + [' '] + b;
    SplitConcat(a, b);
    FirstLettersConcat(Split(a), Split(b));
  }

  /** A non-empty name without spaces has its first character as initials. */
  lemma {:induction false} InitialsOfWord(w: string)
    requires w != [] && ' ' !in w
    ensures Initials(w) == [w[0]]
  {
    SplitOfWord(w);
  }

  lemma {:induction false} SplitOfWord(w: string)
    requires ' ' !in w
    ensures Split(w) == [w]
  {
    if w != [] {
      assert w[0] != ' ';
      assert ' ' !in w[1..] by {
        forall i | 0 <= i < |w[1..]| ensures w[1..][i] != ' ' {
          assert w[1..][i] == w[i + 1];
        }
      }
      SplitOfWord(w[1..]);
      assert w == [w[0]] + w[1..];
    }
  }

  /** Two words separated by one space give the two first letters. */
  lemma InitialsOfTwoWords(a: string, b: string)
    requires a != [] && ' ' !in a
    requires b != [] && ' ' !in b
    ensures Initials(a + " " + b) == [a[0], b[0]]
  {
    InitialsConcat(a, b);
    InitialsOfWord(a);
    InitialsOfWord(b);
  }

  /** The avatar of the profile the screen starts with reads "JD". */
  lemma InitialProfileInitials()
    ensures Initials(InitialProfile.name) == "JD"
  {
    var first, last := "John", "Doe";
    assert InitialProfile.name == first + " " + last;
    InitialsOfTwoWords(first, last);
  }

  // ---------------------------------------------------------------------------
  // The screen's state

  class SettingsPage {
    var profile: Profile
    var password: Password
    var subscription: Subscription
    var notifications: Prefs
    var connectedAccounts: seq<Account>
    var showConnectModal: bool
    var connectPlatform: string

    /** The connected-accounts invariant. */
    ghost predicate Valid()
      reads this`connectedAccounts
    {
      AllConsistent(connectedAccounts)
    }

    constructor ()
      ensures Valid()
      ensures profile == InitialProfile
      ensures password == EmptyPassword
      ensures subscription == Subscription("pro", "monthly", "2023-08-15", PaymentMethod("card", "4242", "04/25"))
      ensures notifications == InitialPrefs()
      ensures connectedAccounts == InitialAccounts()
      ensures !showConnectModal && connectPlatform == "instagram"
    {
      profile := InitialProfile;
      password := EmptyPassword;
      subscription := Subscription("pro", "monthly", "2023-08-15", PaymentMethod("card", "4242", "04/25"));
      notifications := InitialPrefs();
      connectedAccounts := InitialAccounts();
      showConnectModal := false;
      connectPlatform := "instagram";
      InitialAccountsConsistent();
    }

    method HandleProfileChange(f: ProfileField, value: string)
      requires Valid()
      modifies this`profile
      ensures Valid()
      ensures profile == WithProfileField(old(profile), f, value)
    {
      profile := WithProfileField(profile, f, value);
    }

    method HandlePasswordChange(f: PasswordField, value: string)
      requires Valid()
      modifies this`password
      ensures Valid()
      ensures password == WithPasswordField(old(password), f, value)
    {
      password := WithPasswordField(password, f, value);
    }

    /** Returns false where the screen would throw (unknown channel); the preferences are then unchanged. */
    method HandleNotificationToggle(channel: string, setting: string) returns (ok: bool)
      requires Valid()
      modifies this`notifications
      ensures Valid()
      ensures ok <==> channel in old(notifications)
      ensures ok ==> Some(notifications) == ToggleFlag(old(notifications), channel, setting)
      ensures !ok ==> notifications == old(notifications)
    {
      if channel !in notifications {
        return false;
      }
      var inner := notifications[channel];
      notifications := notifications[channel := inner[setting := !(setting in inner && inner[setting])]];
      ok := true;
    }

    method HandlePlanChange(plan: string)
      requires Valid()
      modifies this`subscription
      ensures Valid()
      ensures subscription == WithPlan(old(subscription), plan)
    {
      subscription := WithPlan(subscription, plan);
    }

    method HandleBillingCycleChange(cycle: string)
      requires Valid()
      modifies this`subscription
      ensures Valid()
      ensures subscription == WithBillingCycle(old(subscription), cycle)
    {
      subscription := WithBillingCycle(subscription, cycle);
    }

    /** `now` stands for the clock reading the screen uses as the new id. */
    method HandleConnectAccount(now: int)
      requires Valid()
      modifies this`connectedAccounts, this`showConnectModal
      ensures Valid()
      ensures connectedAccounts == ConnectAccount(old(connectedAccounts), connectPlatform, now)
      ensures !showConnectModal
    {
      connectedAccounts := ConnectAccount(connectedAccounts, connectPlatform, now);
      showConnectModal := false;
    }

    method HandleDisconnectAccount(id: int)
      requires Valid()
      modifies this`connectedAccounts
      ensures Valid()
      ensures connectedAccounts == DisconnectById(old(connectedAccounts), id)
    {
      connectedAccounts := DisconnectById(connectedAccounts, id);
    }

    method HandleReconnectAccount(id: int)
      requires Valid()
      modifies this`connectedAccounts
      ensures Valid()
      ensures connectedAccounts == ReconnectById(old(connectedAccounts), id)
    {
      connectedAccounts := ReconnectById(connectedAccounts, id);
    }

    method HandleRemoveAccount(id: int)
      requires Valid()
      modifies this`connectedAccounts
      ensures Valid()
      ensures connectedAccounts == RemoveAccountById(old(connectedAccounts), id)
    {
      connectedAccounts := RemoveAccountById(connectedAccounts, id);
    }

    /** Runs the checks in order; only a passing change clears the form. */
    method ChangePassword() returns (outcome: PasswordOutcome)
      requires Valid()
      modifies this`password
      ensures Valid()
      ensures outcome == CheckPassword(old(password))
      ensures password == if outcome == Changed then EmptyPassword else old(password)
    {
      if password.newPassword != password.confirm {
        return Mismatch;
      }
      if |password.newPassword| < 8 {
        return TooShort;
      }
      password := EmptyPassword;
      outcome := Changed;
    }

    method SetConnectPlatform(platform: string)
      requires Valid()
      modifies this`connectPlatform
      ensures Valid()
      ensures connectPlatform == platform
    {
      connectPlatform := platform;
    }

    method OpenConnectModal()
      requires Valid()
      modifies this`showConnectModal
      ensures Valid()
      ensures showConnectModal
    {
      showConnectModal := true;
    }

    method CloseConnectModal()
      requires Valid()
      modifies this`showConnectModal
      ensures Valid()
      ensures !showConnectModal
    {
      showConnectModal := false;
    }
  }
}
