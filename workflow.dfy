/** The guarded-mutation workflow shared by every management page: the notification
    and confirmation records, the request that a confirmed action will send, the
    branch choice between create and update, and the JavaScript conversions between
    numbers and decimal strings that the pages rely on. */
module Workflow {

  datatype Option<+T> = None | Some(value: T) {
    /** `x || default` for a value that is either present or missing. */
    function GetOr(default: T): T {
      match this
      case Some(v) => v
      case None => default
    }
  }

  /** Severity of a confirmation dialog: 'warning' | 'danger' | 'info'. */
  datatype Severity = Warning | Danger | Info

  /** Kind of a notification banner: 'success' | 'error' | 'info'. */
  datatype Kind = Success | Error | Information

  /** The notification banner of a page. */
  datatype Snackbar = Snackbar(show: bool, message: string, kind: Kind)

  /** Request a confirmed action sends, with its body captured when it was built.
      `Return` is the loan return, a PUT without body to `/{id}/devolver`. */
  datatype Request<B> = Post(body: B) | Put(id: int, body: B) | Delete(id: int) | Return(id: int)

  datatype Verb = POST | PUT | DELETE

  /** A create or update, the only requests that drive the `submitting` flag and
      clear the form when they succeed. */
  predicate IsSave<B>(r: Request<B>) {
    r.Post? || r.Put?
  }

  /** The deferred action of a confirmation: the request it sends and the two texts
      it will show once the response arrives. Every value it uses is fixed when the
      dialog is opened. */
  datatype Job<B> = Job(request: Request<B>, okText: string, failText: string)

  /** The confirmation dialog of a page; `action == None` is the initial no-op. */
  datatype ConfirmDialog<B> =
    ConfirmDialog(show: bool, title: string, message: string, severity: Severity, action: Option<Job<B>>)

  /** Outcome of one GET: rejected, or resolved with an envelope whose `data` may be missing. */
  datatype Response<T> = Rejected | Resolved(data: Option<seq<T>>)

  const InitialSnackbar: Snackbar := Snackbar(false, "", Success)

  function InitialConfirm<B>(): (d: ConfirmDialog<B>)
    ensures !d.show && d.action == None && d.severity == Info
  {
    ConfirmDialog(false, "", "", Info, None)
  }

  /** The list a resolved response installs: its `data`, or the empty list when the
      envelope has none (`res.data.data || []`). */
  function Loaded<T>(r: Response<T>): (s: seq<T>)
    requires r.Resolved?
    ensures r.data.Some? ==> s == r.data.value
    ensures r.data.None? ==> s == []
  {
    r.data.GetOr([])
  }

  /** JavaScript truthiness of `editingId: number | null`: null and 0 are false. */
  predicate Truthy(id: Option<int>): (b: bool)
    ensures !b <==> id == None || id == Some(0)
  {
    id.Some? && id.value != 0
  }

  /** The request `handleSubmit` prepares: an update of `editingId` when it is truthy,
      a create otherwise; either way carrying the body snapshot. */
  function SaveRequest<B>(editingId: Option<int>, body: B): (r: Request<B>)
    ensures IsSave(r) && r.body == body
    ensures r.Put? <==> Truthy(editingId)
    ensures r.Put? ==> r.id == editingId.value
  {
    if Truthy(editingId) then Put(editingId.value, body) else Post(body)
  }

  /** `${x?.field}` in a template: the text, or "undefined" when the lookup found nothing. */
  function Interpolate(x: Option<string>): (s: string)
    ensures x.Some? ==> s == x.value
    ensures x.None? ==> s == "undefined"
  {
    x.GetOr("undefined")
  }

  /** `name` occurs in `text` starting at position `i`. */
  predicate OccursAt(text: string, name: string, i: nat) {
    i + |name| <= |text| && text[i..i + |name|] == name
  }

  /** `name` occurs somewhere in `text`, as a value interpolated into a template does. */
  ghost predicate Mentions(text: string, name: string) {
    exists i: nat :: OccursAt(text, name, i)
  }

  /** A value interpolated between two pieces of fixed text is mentioned by the result. */
  lemma MentionsInside(before: string, name: string, after: string)
    ensures Mentions(before + name + after, name)
  {
    var t := before + name + after;
    assert t[|before|..|before| + |name|] == name;
    assert OccursAt(t, name, |before|);
  }

  /** A value interpolated before two further pieces of a template is mentioned. */
  lemma MentionsBefore(before: string, name: string, mid: string, after: string)
    ensures Mentions(before + name + mid + after, name)
  {
    var t := before + name + mid + after;
    assert t[|before|..|before| + |name|] == name;
    assert OccursAt(t, name, |before|);
  }

  /** A value interpolated at the end of a template is mentioned. */
  lemma MentionsAtEnd(before: string, name: string)
    ensures Mentions(before + name, name)
  {
    var t := before + name;
    assert t[|before|..|before| + |name|] == name;
    assert OccursAt(t, name, |before|);
  }

  // ---------------------------------------------------------------------------
  // Array.prototype.find

  /** The first element of `s` satisfying `p`, or None. */
  function Find<T>(s: seq<T>, p: T -> bool): (r: Option<T>)
    ensures r.None? <==> forall i :: 0 <= i < |s| ==> !p(s[i])
    ensures r.Some? ==> exists i :: 0 <= i < |s| && s[i] == r.value && p(s[i]) && forall j :: 0 <= j < i ==> !p(s[j])
  {
    if |s| == 0 then None
    else if p(s[0]) then Some(s[0])
    else
      var r := Find(s[1..], p);
      assert r.Some? ==> exists i :: 1 <= i < |s| && s[i] == r.value && p(s[i]) && forall j :: 1 <= j < i ==> !p(s[j]) by {
        if r.Some? {
          var i :| 0 <= i < |s[1..]| && s[1..][i] == r.value && p(s[1..][i]) && forall j :: 0 <= j < i ==> !p(s[1..][j]);
          assert s[i + 1] == r.value && p(s[i + 1]);
          assert forall j :: 1 <= j < i + 1 ==> !p(s[j]) by {
            forall j | 1 <= j < i + 1 ensures !p(s[j]) { assert s[j] == s[1..][j - 1]; }
          }
        }
      }
      r
  }

  // ---------------------------------------------------------------------------
  // Number to decimal string (`n.toString()`, `${n}`) and `parseInt(s)`

  predicate IsDigit(c: char) {
    '0' <= c <= '9'
  }

  function DigitChar(d: nat): (c: char)
    requires d < 10
    ensures IsDigit(c) && (c as int) - ('0' as int) == d
  {
    (('0' as int) + d) as char
  }

  function DigitValue(c: char): (d: nat)
    requires IsDigit(c)
    ensures d < 10
  {
    (c as int) - ('0' as int)
  }

  predicate AllDigits(s: string) {
    forall i :: 0 <= i < |s| ==> IsDigit(s[i])
  }

  /** Decimal digits of a natural number, without leading zeros. */
  function NatDecimal(n: nat): (s: string)
    ensures |s| >= 1 && AllDigits(s)
    ensures |s| > 1 ==> s[0] != '0'
  {
    if n < 10 then [DigitChar(n)] else NatDecimal(n / 10) + [DigitChar(n % 10)]
  }

  /** Decimal text of an integer, with a leading '-' for a negative one. */
  function Decimal(n: int): (s: string)
    ensures |s| >= 1
    ensures s[0] == '-' <==> n < 0
  {
    if n < 0 then "-" + NatDecimal(-n) else NatDecimal(n)
  }

  /** The value of a string of digits read in base 10. */
  function DigitsValue(s: string): nat
    requires AllDigits(s)
  {
    if |s| == 0 then 0 else DigitsValue(s[..|s| - 1]) * 10 + DigitValue(s[|s| - 1])
  }

  /** Length of the longest prefix of `s` made of digits. */
  function DigitRun(s: string): (k: nat)
    ensures k <= |s| && AllDigits(s[..k])
    ensures k < |s| ==> !IsDigit(s[k])
  {
    if |s| == 0 || !IsDigit(s[0]) then 0
    else
      var k := 1 + DigitRun(s[1..]);
      assert s[..k] == [s[0]] + s[1..][..k - 1];
      k
  }

  /** `parseInt(s)` in base 10: an optional sign, then the longest run of digits;
      None stands for NaN, the result when there is no digit to read. */
  function ParseInt(s: string): (r: Option<int>)
    ensures s == "" ==> r == None
    ensures |s| > 0 && IsDigit(s[0]) ==> r.Some? && r.value >= 0
  {
    var start := if |s| > 0 && (s[0] == '-' || s[0] == '+') then 1 else 0;
    var digits := s[start..];
    var k := DigitRun(digits);
    if k == 0 then None
    else
      var v: int := DigitsValue(digits[..k]);
      Some(if start == 1 && s[0] == '-' then -v else v)
  }

  lemma {:induction false} NatDecimalValue(n: nat)
    ensures DigitsValue(NatDecimal(n)) == n
  {
    if n >= 10 {
      NatDecimalValue(n / 10);
      var s := NatDecimal(n);
      assert s[..|s| - 1] == NatDecimal(n / 10);
    }
  }

  lemma {:induction false} DigitRunStopsAt(s: string, rest: string)
    requires AllDigits(s)
    requires rest == [] || !IsDigit(rest[0])
    ensures DigitRun(s + rest) == |s|
  {
    if |s| > 0 {
      assert (s + rest)[1..] == s[1..] + rest;
      DigitRunStopsAt(s[1..], rest);
    }
  }

  /** Reading back the decimal text of `n`, followed by anything that does not start
      with a digit, gives `n` again. */
  lemma {:induction false} ParseDecimal(n: int, rest: string)
    requires rest == [] || !IsDigit(rest[0])
    ensures ParseInt(Decimal(n) + rest) == Some(n)
  {
    var m: nat := if n < 0 then -n else n;
    var ds := NatDecimal(m);
    var s := Decimal(n) + rest;
    var start := if n < 0 then 1 else 0;
    assert s[start..] == ds + rest;
    assert s[0] == '-' <==> n < 0;
    DigitRunStopsAt(ds, rest);
    assert (ds + rest)[..|ds|] == ds;
    NatDecimalValue(m);
  }

  /** parseInt(n.toString()) == n. */
  lemma ParseDecimalRoundTrip(n: int)
    ensures ParseInt(Decimal(n)) == Some(n)
  {
    ParseDecimal(n, "");
    assert Decimal(n) + "" == Decimal(n);
  }

  /** Distinct ids have distinct decimal texts. */
  lemma DecimalInjective(a: int, b: int)
    requires Decimal(a) == Decimal(b)
    ensures a == b
  {
    ParseDecimalRoundTrip(a);
    ParseDecimalRoundTrip(b);
  }

  // ---------------------------------------------------------------------------
  // Where a request goes

  function VerbOf<B>(r: Request<B>): (v: Verb)
    ensures v == POST <==> r.Post?
    ensures v == DELETE <==> r.Delete?
  {
    match r
    case Post(_) => POST
    case Put(_, _) => PUT
    case Delete(_) => DELETE
    case Return(_) => PUT
  }

  /** Path of a request under the collection path `collection` (e.g. "/libros"). */
  function Path<B>(collection: string, r: Request<B>): (p: string)
    ensures |p| >= |collection| && p[..|collection|] == collection
    ensures p == collection <==> r.Post?
  {
    match r
    case Post(_) => collection
    case Put(id, _) => collection + "/" + Decimal(id)
    case Delete(id) => collection + "/" + Decimal(id)
    case Return(id) => collection + "/" + Decimal(id) + "/devolver"
  }

  /** Every request but a create addresses one record: its path is the collection,
      a slash, then text from which `parseInt` reads back exactly that record's id. */
  lemma PathAddressesRecord<B>(collection: string, r: Request<B>)
    requires !r.Post?
    ensures |Path(collection, r)| > |collection| + 1
    ensures Path(collection, r)[..|collection| + 1] == collection + "/"
    ensures ParseInt(Path(collection, r)[|collection| + 1..]) == Some(r.id)
  {
    var p := Path(collection, r);
    if r.Return? {
      assert p == (collection + "/") + (Decimal(r.id) + "/devolver");
      assert p[|collection| + 1..] == Decimal(r.id) + "/devolver";
      ParseDecimal(r.id, "/devolver");
    } else {
      assert p == (collection + "/") + Decimal(r.id);
      assert p[|collection| + 1..] == Decimal(r.id);
      ParseDecimalRoundTrip(r.id);
    }
  }

  /** Two requests of the same kind to the same path address the same record. */
  lemma PathInjective<B>(collection: string, r1: Request<B>, r2: Request<B>)
    requires !r1.Post? && !r2.Post?
    requires Path(collection, r1) == Path(collection, r2)
    ensures r1.id == r2.id
  {
    PathAddressesRecord(collection, r1);
    PathAddressesRecord(collection, r2);
  }

  // ---------------------------------------------------------------------------
  // Outstanding mutations

  /** Number of creates and updates among the outstanding jobs. */
  function Saves<B>(jobs: seq<Job<B>>): nat
  {
    if |jobs| == 0 then 0 else (if IsSave(jobs[0].request) then 1 else 0) + Saves(jobs[1..])
  }

  lemma {:induction false} SavesConcat<B>(a: seq<Job<B>>, b: seq<Job<B>>)
    ensures Saves(a + b) == Saves(a) + Saves(b)
  {
    if |a| > 0 {
      assert (a + b)[0] == a[0];
      assert (a + b)[1..] == a[1..] + b;
      SavesConcat(a[1..], b);
    } else {
      assert a + b == b;
    }
  }

  /** Removing the `i`-th job lowers the count by one exactly when that job is a save. */
  lemma SavesRemove<B>(jobs: seq<Job<B>>, i: nat)
    requires i < |jobs|
    ensures Saves(jobs[..i] + jobs[i + 1..]) == Saves(jobs) - (if IsSave(jobs[i].request) then 1 else 0)
  {
    var front, back := jobs[..i], jobs[i + 1..];
    var tail := [jobs[i]] + back;
    assert jobs == front + tail;
    SavesConcat(front, tail);
    assert tail[0] == jobs[i] && tail[1..] == back;
    assert Saves(tail) == (if IsSave(jobs[i].request) then 1 else 0) + Saves(back);
    SavesConcat(front, back);
  }

  lemma SavesAppend<B>(jobs: seq<Job<B>>, j: Job<B>)
    ensures Saves(jobs + [j]) == Saves(jobs) + (if IsSave(j.request) then 1 else 0)
  {
    SavesConcat(jobs, [j]);
    assert [j][1..] == [];
  }

  /** The page invariant every management page keeps:
      - `submitting` is true exactly while one create/update is outstanding, and
        never more than one is;
      - a shown confirmation carries an action, and when that action is a save no
        save is outstanding (the submit control was enabled when it opened);
      - the loading view is off once no fetch is outstanding. */
  ghost predicate Consistent<B>(inFlight: seq<Job<B>>, submitting: bool, confirm: ConfirmDialog<B>,
                                pendingFetches: nat, loading: bool)
  {
    && Saves(inFlight) == (if submitting then 1 else 0)
    && (confirm.show ==> confirm.action.Some?)
    && (confirm.show && IsSave(confirm.action.value.request) ==> !submitting)
    && (pendingFetches == 0 ==> !loading)
  }
}
