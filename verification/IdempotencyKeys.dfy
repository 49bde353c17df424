/** Intents, and the text key that identifies one to the state store. */
module IdempotencyKeys {
  datatype IntentKind =
    | Entry | Close | Cancel
    | PlaceProtection | ReplaceProtection | CancelProtection

  datatype Intent = Intent(intentId: string, operationId: string, kind: IntentKind, role: string, symbol: string)

  predicate IsOrder(k: IntentKind) {
    k == Entry || k == Close || k == Cancel
  }

  function Suffix(k: IntentKind): string {
    match k
    case Entry => "entry"
    case Close => "close"
    case Cancel => "cancel"
    case PlaceProtection => "place_protection"
    case ReplaceProtection => "replace_protection"
    case CancelProtection => "cancel_protection"
  }

  function Key(x: Intent): string {
    x.intentId + ":" + x.operationId + ":" + Suffix(x.kind)
  }

  /** Two texts that end in a colon-free part agree exactly when both parts do. */
  lemma {:induction false} LastColonSplits(a: string, x: string, b: string, y: string)
    requires ':' !in x && ':' !in y
    requires a + ":" + x == b + ":" + y
    ensures a == b && x == y
    decreases |x|
  {
    var s, t := a + ":" + x, b + ":" + y;
    if x == [] || y == [] {
      assert s[|s| - 1] == (":" + x)[|x|] && t[|t| - 1] == (":" + y)[|y|];
      assert a == s[..|s| - 1] && b == t[..|t| - 1];
    } else {
      var x', y' := x[..|x| - 1], y[..|y| - 1];
      assert x == x' + [x[|x| - 1]] && y == y' + [y[|y| - 1]];
      assert s[..|s| - 1] == a + ":" + x' && t[..|t| - 1] == b + ":" + y';
      assert s[|s| - 1] == x[|x| - 1] && t[|t| - 1] == y[|y| - 1];
      LastColonSplits(a, x', b, y');
    }
  }

  lemma SuffixesDiffer(k: IntentKind, l: IntentKind)
    requires Suffix(k) == Suffix(l)
    ensures k == l
  {
  }

  /** Equal keys mean the same kind of intent, and the same joined ids. */
  lemma EqualKeys(x: Intent, y: Intent)
    ensures Key(x) == Key(y) <==>
            x.kind == y.kind && x.intentId + ":" + x.operationId == y.intentId + ":" + y.operationId
  {
    if Key(x) == Key(y) {
      LastColonSplits(x.intentId + ":" + x.operationId, Suffix(x.kind),
                      y.intentId + ":" + y.operationId, Suffix(y.kind));
      SuffixesDiffer(x.kind, y.kind);
    }
  }

  lemma OrderAndRiskKeysDiffer(x: Intent, y: Intent)
    requires IsOrder(x.kind) && !IsOrder(y.kind)
    ensures Key(x) != Key(y)
  {
    EqualKeys(x, y);
  }

  /** With colons in the ids, two different operations can share a key. */
  lemma KeysCanCollide() returns (x: Intent, y: Intent)
    ensures x.intentId != y.intentId && x.operationId != y.operationId && Key(x) == Key(y)
  {
    x := Intent("a:b", "c", Entry, "entry", "s");
    y := Intent("a", "b:c", Entry, "entry", "s");
    assert "a:b" + ":" + "c" == "a" + ":" + "b:c";
  }

  // ---- The ids the framework builds ----

  /** An operation carries a signal event id, or is named by its type, time and price, as rendered. */
  datatype Origin = BySignal(id: string) | ByFields(side: string, dtime: string, price: string)

  /** The order itself, the intent for its protection, a move of that to break-even, and the fail-safe close. */
  datatype Form = Main | Risk | Breakeven | FailSafe

  const INTENT := "intent"
  const RISK := "risk"
  const FAIL_SAFE := "fail_safe_close"
  const BREAKEVEN := "breakeven"

  function OriginIntentId(o: Origin): string {
    match o
    case BySignal(id) => INTENT + ":" + id
    case ByFields(side, dtime, _) => INTENT + ":" + (side + ":" + dtime)
  }

  function OriginOperationId(o: Origin): string {
    match o
    case BySignal(id) => id
    case ByFields(side, dtime, price) => side + ":" + (dtime + ":" + price)
  }

  function WithForm(intentId: string, f: Form): string {
    match f
    case Main => intentId
    case Risk => RISK + ":" + intentId
    case Breakeven => RISK + ":" + (intentId + ":" + BREAKEVEN)
    case FailSafe => intentId + ":" + FAIL_SAFE
  }

  function Built(o: Origin, f: Form, kind: IntentKind, role: string, symbol: string): Intent {
    Intent(WithForm(OriginIntentId(o), f), OriginOperationId(o), kind, role, symbol)
  }

  /** Type names, times and prices are rendered without a colon, and none reads like the mark of a form. */
  predicate Rendered(o: Origin) {
    o.ByFields? ==>
      && ':' !in o.side && ':' !in o.dtime && ':' !in o.price
      && o.side != FAIL_SAFE && o.price != FAIL_SAFE && o.side != BREAKEVEN && o.price != BREAKEVEN
  }

  /** The stretches between the colons. */
  function Parts(s: string): (r: seq<string>)
    ensures r != []
  {
    if s == [] then [[]]
    else
      var rest := Parts(s[1..]);
      if s[0] == ':' then [[]] + rest else [[s[0]] + rest[0]] + rest[1..]
  }

  lemma {:induction false} PartsOfJoin(a: string, b: string)
    ensures Parts(a + ":" + b) == Parts(a) + Parts(b)
  {
    var s := a + ":" + b;
    if a == [] {
      assert s[1..] == b;
    } else {
      assert s[1..] == a[1..] + ":" + b;
      PartsOfJoin(a[1..], b);
    }
  }

  lemma {:induction false} PartsIdentify(a: string, b: string)
    requires Parts(a) == Parts(b)
    ensures a == b
  {
    if a != [] && b != [] {
      assert a[0] == ':' <==> Parts(a)[0] == [];
      assert b[0] == ':' <==> Parts(b)[0] == [];
      var x, y := Parts(a[1..]), Parts(b[1..]);
      if a[0] == ':' {
        assert x == Parts(a)[1..] && y == Parts(b)[1..];
      } else {
        assert x == [Parts(a)[0][1..]] + Parts(a)[1..] && y == [Parts(b)[0][1..]] + Parts(b)[1..];
      }
      PartsIdentify(a[1..], b[1..]);
    }
  }

  lemma {:induction false} PartsOfColonFree(s: string)
    requires ':' !in s
    ensures Parts(s) == [s]
  {
    if s != [] {
      PartsOfColonFree(s[1..]);
      assert [s[0]] + s[1..] == s;
    }
  }

  lemma MarkInFront(mark: string, s: string)
    requires ':' !in mark
    ensures Parts(mark + ":" + s) == [mark] + Parts(s)
  {
    PartsOfColonFree(mark);
    PartsOfJoin(mark, s);
  }

  lemma MarkBehind(s: string, mark: string)
    requires ':' !in mark
    ensures Parts(s + ":" + mark) == Parts(s) + [mark]
  {
    PartsOfColonFree(mark);
    PartsOfJoin(s, mark);
  }

  lemma MarkAround(front: string, s: string, behind: string)
    requires ':' !in front && ':' !in behind
    ensures Parts(front + ":" + (s + ":" + behind)) == [front] + Parts(s) + [behind]
  {
    MarkBehind(s, behind);
    MarkInFront(front, s + ":" + behind);
  }

  /** The parts an origin contributes to the intent id, after its mark, and to the operation id. */
  function IntentParts(o: Origin): seq<string> {
    match o
    case BySignal(id) => Parts(id)
    case ByFields(side, dtime, _) => [side, dtime]
  }

  function OperationParts(o: Origin): seq<string> {
    match o
    case BySignal(id) => Parts(id)
    case ByFields(side, dtime, price) => [side, dtime, price]
  }

  lemma OriginParts(o: Origin)
    requires Rendered(o)
    ensures Parts(OriginIntentId(o)) == [INTENT] + IntentParts(o)
    ensures Parts(OriginOperationId(o)) == OperationParts(o)
  {
    match o
    case BySignal(id) =>
      MarkInFront(INTENT, id);
    case ByFields(side, dtime, price) =>
      PartsOfColonFree(dtime);
      PartsOfColonFree(price);
      MarkInFront(side, dtime);
      MarkInFront(INTENT, side + ":" + dtime);
      MarkInFront(dtime, price);
      MarkInFront(side, dtime + ":" + price);
  }

  /** The parts of an intent id and an operation id together, with the mark between them. */
  function Body(o: Origin, mark: seq<string>): seq<string> {
    IntentParts(o) + mark + OperationParts(o)
  }

  function MarksBefore(f: Form): seq<string> {
    if f == Risk || f == Breakeven then [RISK, INTENT] else [INTENT]
  }

  function MarkAfter(f: Form): seq<string> {
    if f == FailSafe then [FAIL_SAFE] else if f == Breakeven then [BREAKEVEN] else []
  }

  predicate IsMark(mark: seq<string>) {
    mark == [] || mark == [FAIL_SAFE] || mark == [BREAKEVEN]
  }

  lemma FormParts(intentId: string, parts: seq<string>, f: Form)
    requires Parts(intentId) == [INTENT] + parts
    ensures Parts(WithForm(intentId, f)) == MarksBefore(f) + parts + MarkAfter(f)
  {
    match f
    case Main =>
    case Risk => RiskParts(intentId, parts);
    case Breakeven => BreakevenParts(intentId, parts);
    case FailSafe => FailSafeParts(intentId, parts);
  }

  lemma RiskParts(intentId: string, parts: seq<string>)
    requires Parts(intentId) == [INTENT] + parts
    ensures Parts(RISK + ":" + intentId) == [RISK, INTENT] + parts
  {
    MarkInFront(RISK, intentId);
  }

  lemma BreakevenParts(intentId: string, parts: seq<string>)
    requires Parts(intentId) == [INTENT] + parts
    ensures Parts(RISK + ":" + (intentId + ":" + BREAKEVEN)) == [RISK, INTENT] + parts + [BREAKEVEN]
  {
    MarkAround(RISK, intentId, BREAKEVEN);
  }

  lemma FailSafeParts(intentId: string, parts: seq<string>)
    requires Parts(intentId) == [INTENT] + parts
    ensures Parts(intentId + ":" + FAIL_SAFE) == [INTENT] + parts + [FAIL_SAFE]
  {
    MarkBehind(intentId, FAIL_SAFE);
  }

  lemma Regrouped(marks: seq<string>, parts: seq<string>, mark: seq<string>, operationParts: seq<string>)
    ensures marks + parts + mark + operationParts == marks + (parts + mark + operationParts)
  {
  }

  lemma JoinedParts(o: Origin, f: Form)
    requires Rendered(o)
    ensures Parts(WithForm(OriginIntentId(o), f) + ":" + OriginOperationId(o))
            == MarksBefore(f) + Body(o, MarkAfter(f))
  {
    OriginParts(o);
    FormParts(OriginIntentId(o), IntentParts(o), f);
    PartsOfJoin(WithForm(OriginIntentId(o), f), OriginOperationId(o));
    Regrouped(MarksBefore(f), IntentParts(o), MarkAfter(f), OperationParts(o));
  }

  lemma SignalBody(id: string, mark: seq<string>)
    requires IsMark(mark)
    ensures var b, n := Body(BySignal(id), mark), |Parts(id)|;
            && |b| == 2 * n + |mark| && |mark| <= 1
            && b[..n] == Parts(id) && b[|b| - n..] == Parts(id)
            && (mark != [] ==> b[n] == mark[0])
  {
  }

  /** A signal's ids never read like those of a named operation: the parities or the marks differ. */
  lemma SignalIsNotFields(id: string, x: seq<string>, o: Origin, y: seq<string>)
    requires o.ByFields? && Rendered(o) && IsMark(x) && IsMark(y)
    ensures Body(BySignal(id), x) != Body(o, y)
  {
    SignalBody(id, x);
    var b, c, n := Body(BySignal(id), x), Body(o, y), |Parts(id)|;
    if x != [] {
      assert n == 2 && y == [] ==> b[2] == x[0] && c[2] == o.side;
    } else {
      assert n == 3 && y != [] ==> b[..3][2] == b[3..][2] && c[2] == y[0] && c[5] == o.price;
    }
  }

  lemma BodiesIdentify(o: Origin, x: seq<string>, o': Origin, y: seq<string>)
    requires Rendered(o) && Rendered(o') && IsMark(x) && IsMark(y) && Body(o, x) == Body(o', y)
    ensures o == o' && x == y
  {
    if o.BySignal? && o'.BySignal? {
      SignalBody(o.id, x);
      SignalBody(o'.id, y);
      PartsIdentify(o.id, o'.id);
    } else if o.BySignal? {
      SignalIsNotFields(o.id, x, o', y);
    } else if o'.BySignal? {
      SignalIsNotFields(o'.id, y, o, x);
    } else {
      var b, c := Body(o, x), Body(o', y);
      assert |b| == |c| ==> |x| == |y|;
      assert x != [] && y != [] ==> b[2] == x[0] && c[2] == y[0];
      assert b[0] == o.side && b[1] == o.dtime && b[|b| - 1] == o.price;
      assert c[0] == o'.side && c[1] == o'.dtime && c[|c| - 1] == o'.price;
    }
  }

  /** Whatever the signal event ids are, the keys of the intents the framework builds tell operation, form and kind. */
  lemma BuiltKeysIdentify(
    o: Origin, f: Form, k: IntentKind, role: string, symbol: string,
    o': Origin, g: Form, l: IntentKind, role': string, symbol': string)
    requires Rendered(o) && Rendered(o')
    ensures Key(Built(o, f, k, role, symbol)) == Key(Built(o', g, l, role', symbol'))
            <==> o == o' && f == g && k == l
  {
    var x, y := Built(o, f, k, role, symbol), Built(o', g, l, role', symbol');
    EqualKeys(x, y);
    if Key(x) == Key(y) {
      JoinedParts(o, f);
      JoinedParts(o', g);
      var b, c := MarksBefore(f) + Body(o, MarkAfter(f)), MarksBefore(g) + Body(o', MarkAfter(g));
      assert b == c && b[0] == MarksBefore(f)[0] && c[0] == MarksBefore(g)[0];
      assert Body(o, MarkAfter(f)) == b[|MarksBefore(f)|..] && Body(o', MarkAfter(g)) == c[|MarksBefore(g)|..];
      BodiesIdentify(o, MarkAfter(f), o', MarkAfter(g));
    }
  }
}
