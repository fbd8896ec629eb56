/** KRemoteKeyboardRoutingService: the capture modes and the keys it presses and releases on the remote
    side. Replaying what it has emitted gives exactly the keys it remembers as sent. */
module KeyboardRouting {

  datatype Mode = Inactive | RemoteCapture | Recording | Draining

  datatype Key = Key(vk: bv32, scan: bv32, extended: bool)

  datatype Id = Id(bits: bv32)

  /** The identifier under which a sent key is remembered. */
  function KeyId(k: Key): Id {
    Id(k.vk | (k.scan << 8) | (if k.extended then 0x20000 else 0))
  }

  datatype KeyEvent = KeyEvent(key: Key, pressed: bool)

  datatype Shortcut = ReleaseCaptureShortcut | FullscreenShortcut | LocalOnlyShortcut | NoShortcut

  /** Settings and platform tables: which keys are modifiers, what a key means with modifiers held, and
      an order in which a hash gives its keys. */
  datatype Config = Config(
    isModifier: bv32 -> bool,
    normalize: bv32 -> bv32,
    shortcut: (bv32, set<bv32>) -> Shortcut,
    order: set<Id> -> seq<Id>)

  ghost predicate ConfigOk(cfg: Config) {
    forall s: set<Id> :: ListsOnce(cfg.order(s), s)
  }

  ghost predicate ListsOnce(ids: seq<Id>, s: set<Id>) {
    && (forall i, j :: 0 <= i < j < |ids| ==> ids[i] != ids[j])
    && (forall id :: id in s <==> id in ids)
  }

  /** Calls the handlers leave to the event loop. */
  datatype Queued = StopHookCall | ReleaseCaptureCall | FocusLostCall | CancelRecordingCall

  datatype Router = Router(
    mode: Mode,
    pending: seq<Key>,
    physical: set<bv32>,
    consumed: set<bv32>,
    sentIds: set<Id>,
    sent: map<Id, Key>,
    queue: seq<Queued>,
    out: seq<KeyEvent>)

  const NEW_ROUTER := Router(Inactive, [], {}, {}, {}, map[], [], [])

  function Post(r: Router, q: Queued): Router { r.(queue := r.queue + [q]) }

  // ---------- keys ----------

  function SendKey(r: Router, key: Key, pressed: bool): Router {
    var id := KeyId(key);
    r.(sentIds := if pressed then r.sentIds + {id} else r.sentIds - {id},
       sent := if pressed then r.sent[id := key] else r.sent - {id},
       out := r.out + [KeyEvent(key, pressed)])
  }

  function SendAll(r: Router, keys: seq<Key>): Router
    decreases |keys|
  {
    if keys == [] then r else SendAll(SendKey(r, keys[0], true), keys[1..])
  }

  function FlushPending(r: Router): Router {
    if !r.mode.RemoteCapture? then r else SendAll(r, r.pending).(pending := [])
  }

  function Releases(sent: map<Id, Key>, ids: seq<Id>): seq<KeyEvent>
    requires forall i :: 0 <= i < |ids| ==> ids[i] in sent
  {
    seq(|ids|, i requires 0 <= i < |ids| => KeyEvent(sent[ids[i]], false))
  }

  /** Every sent key is forgotten and released. */
  function ReleaseSent(cfg: Config, r: Router): Router {
    var ids := cfg.order(r.sent.Keys);
    if forall i :: 0 <= i < |ids| ==> ids[i] in r.sent then
      r.(sent := map[], sentIds := {}, out := r.out + Releases(r.sent, ids))
    else r.(sent := map[], sentIds := {})
  }

  function StopHook(r: Router): Router {
    r.(mode := Inactive, pending := [], physical := {}, consumed := {})
  }

  function ReleaseCapture(cfg: Config, r: Router): Router {
    if !r.mode.RemoteCapture? && !r.mode.Draining? then r
    else
      var s := ReleaseSent(cfg, r).(pending := []);
      if s.physical == {} && s.consumed == {} then StopHook(s) else s.(mode := Draining)
  }

  function FocusLost(cfg: Config, r: Router): Router {
    if !r.mode.RemoteCapture? && !r.mode.Draining? then r else StopHook(ReleaseSent(cfg, r))
  }

  function CancelRecording(r: Router): Router {
    if r.mode.Recording? then StopHook(r) else r
  }

  /** `eligible`: session, capabilities, permission and windows allow capture, and the remote window
      is in front; `started`: the keyboard hook could be installed. */
  function RequestCapture(r: Router, eligible: bool, started: bool): Router {
    if !eligible || r.mode.RemoteCapture? then r
    else if started then StopHook(r).(mode := RemoteCapture)
    else StopHook(r)
  }

  function BeginRecording(cfg: Config, r: Router, valid: bool, started: bool): Router {
    if !valid then r
    else
      var s := StopHook(FocusLost(cfg, r));
      if started then s.(mode := Recording) else s
  }

  // ---------- keyboard events ----------

  function Consume(cfg: Config, r: Router, vk: bv32): Router {
    r.(consumed := r.consumed + r.physical + {cfg.normalize(vk)}, pending := [])
  }

  function ModifierEvent(r: Router, key: Key, pressed: bool): Router {
    if pressed then
      if key.vk in r.physical then r
      else r.(physical := r.physical + {key.vk}, pending := r.pending + [key])
    else
      var s := r.(physical := r.physical - {key.vk});
      if key.vk in s.consumed then s.(consumed := s.consumed - {key.vk})
      else
        var t := FlushPending(s);
        if KeyId(key) in t.sentIds then SendKey(t, key, false) else t
  }

  function CaptureEvent(cfg: Config, r: Router, key: Key, pressed: bool): Router {
    if cfg.isModifier(key.vk) then ModifierEvent(r, key, pressed)
    else if !pressed then
      if key.vk in r.consumed then r.(consumed := r.consumed - {key.vk})
      else if KeyId(key) in r.sentIds then SendKey(r, key, false) else r
    else
      match cfg.shortcut(key.vk, r.physical)
      case ReleaseCaptureShortcut => Post(Consume(cfg, r, key.vk), ReleaseCaptureCall)
      case FullscreenShortcut => Consume(cfg, r, key.vk)
      case LocalOnlyShortcut => Consume(cfg, r, key.vk)
      case NoShortcut => SendKey(FlushPending(r), key, true)
  }

  function DrainingEvent(r: Router, key: Key, pressed: bool): Router {
    if pressed then r
    else
      var s := r.(physical := r.physical - {key.vk}, consumed := r.consumed - {key.vk});
      if s.physical == {} && s.consumed == {} then Post(s, StopHookCall) else s
  }

  /** `escape`: the key cancels a recording; any other key that is no modifier ends it. */
  function RecordingEvent(cfg: Config, r: Router, key: Key, pressed: bool, escape: bool): Router {
    if cfg.isModifier(key.vk) then
      r.(physical := if pressed then r.physical + {key.vk} else r.physical - {key.vk})
    else if !pressed then r
    else if escape then Post(r, CancelRecordingCall)
    else Post(r, StopHookCall)
  }

  function Keyboard(cfg: Config, r: Router, key: Key, pressed: bool, eligible: bool, escape: bool): Router {
    match r.mode
    case Recording => RecordingEvent(cfg, r, key, pressed, escape)
    case Draining => DrainingEvent(r, key, pressed)
    case Inactive => r
    case RemoteCapture =>
      if eligible then CaptureEvent(cfg, r, key, pressed) else Post(r, FocusLostCall)
  }

  // ---------- the event loop ----------

  datatype Event =
    | KeyboardEvent(key: Key, pressed: bool, eligible: bool, escape: bool)
    | CaptureRequested(eligible: bool, started: bool)
    | CaptureReleased
    | FocusIsLost
    | FlushRequested
    | RecordingRequested(valid: bool, started: bool)
    | RecordingEnds

  function Handle(cfg: Config, r: Router, e: Event): Router {
    match e
    case KeyboardEvent(key, pressed, eligible, escape) => Keyboard(cfg, r, key, pressed, eligible, escape)
    case CaptureRequested(eligible, started) => RequestCapture(r, eligible, started)
    case CaptureReleased => ReleaseCapture(cfg, r)
    case FocusIsLost => FocusLost(cfg, r)
    case FlushRequested => FlushPending(r)
    case RecordingRequested(valid, started) => BeginRecording(cfg, r, valid, started)
    case RecordingEnds => CancelRecording(r)
  }

  function RunQueued(cfg: Config, r: Router, q: Queued): Router {
    match q
    case StopHookCall => StopHook(r)
    case ReleaseCaptureCall => ReleaseCapture(cfg, r)
    case FocusLostCall => FocusLost(cfg, r)
    case CancelRecordingCall => CancelRecording(r)
  }

  function RunAll(cfg: Config, r: Router, qs: seq<Queued>): Router
    decreases |qs|
  {
    if qs == [] then r else RunAll(cfg, RunQueued(cfg, r, qs[0]), qs[1..])
  }

  /** One event and, behind it, the calls it queued. */
  function Turn(cfg: Config, r: Router, e: Event): Router {
    var s := Handle(cfg, r, e);
    RunAll(cfg, s.(queue := []), s.queue)
  }

  function Turns(cfg: Config, r: Router, es: seq<Event>): Router
    decreases |es|
  {
    if es == [] then r else Turns(cfg, Turn(cfg, r, es[0]), es[1..])
  }

  // ---------- key balance ----------

  /** The keys held on the remote side after the events. */
  function Held(out: seq<KeyEvent>): set<Key> {
    if out == [] then {}
    else
      var e := out[|out| - 1];
      if e.pressed then Held(out[..|out| - 1]) + {e.key} else Held(out[..|out| - 1]) - {e.key}
  }

  /** No key is released that is not held. */
  predicate Clean(out: seq<KeyEvent>) {
    out == []
    || (Clean(out[..|out| - 1]) && (out[|out| - 1].pressed || out[|out| - 1].key in Held(out[..|out| - 1])))
  }

  /** Nothing is sent but what is held, and no key was released that was not held. */
  ghost predicate Balanced(r: Router) {
    && r.sentIds == r.sent.Keys
    && (forall id :: id in r.sent ==> KeyId(r.sent[id]) == id)
    && (forall k :: k in Held(r.out) <==> KeyId(k) in r.sent && r.sent[KeyId(k)] == k)
    && Clean(r.out)
  }

  /** The balance, with nothing held outside the capture mode. */
  ghost predicate HandledOk(r: Router) {
    Balanced(r) && (!r.mode.RemoteCapture? ==> r.sent == map[])
  }

  lemma Emit(out: seq<KeyEvent>, e: KeyEvent)
    ensures Held(out + [e]) == if e.pressed then Held(out) + {e.key} else Held(out) - {e.key}
    ensures Clean(out + [e]) <==> Clean(out) && (e.pressed || e.key in Held(out))
  {
    assert (out + [e])[..|out|] == out;
  }

  // ---------- one key ----------

  /** No other key stands under the key's identifier. */
  predicate Apart(sent: map<Id, Key>, key: Key) {
    KeyId(key) in sent ==> sent[KeyId(key)] == key
  }

  /** Each key is apart from those sent before it and from those in front of it. */
  predicate AllApart(sent: map<Id, Key>, keys: seq<Key>)
    decreases |keys|
  {
    keys == [] || (Apart(sent, keys[0]) && AllApart(sent[KeyId(keys[0]) := keys[0]], keys[1..]))
  }

  /** Two keys are held that share an identifier. */
  ghost predicate Doubled(held: set<Key>) {
    exists a, b :: a in held && b in held && a != b && KeyId(a) == KeyId(b)
  }

  lemma DoubledUnbalanced(r: Router)
    requires Doubled(Held(r.out))
    ensures !Balanced(r)
  {
    var a, b :| a in Held(r.out) && b in Held(r.out) && a != b && KeyId(a) == KeyId(b);
  }

  /** A press keeps the balance exactly when the key is apart; otherwise two keys are held under one
      identifier. */
  lemma PressExactly(r: Router, key: Key)
    requires Balanced(r)
    ensures Apart(r.sent, key) ==> Balanced(SendKey(r, key, true))
    ensures !Apart(r.sent, key) ==> Doubled(Held(SendKey(r, key, true).out))
  {
    Emit(r.out, KeyEvent(key, true));
    if Apart(r.sent, key) {
      PressedMap(r.sent, r.out, key, KeyId(key), SendKey(r, key, true).out);
    } else {
      var other := r.sent[KeyId(key)];
      assert other in Held(r.out) && other != key && KeyId(other) == KeyId(key);
    }
  }

  lemma PressedMap(sent: map<Id, Key>, out: seq<KeyEvent>, key: Key, id: Id, after: seq<KeyEvent>)
    requires KeyId(key) == id && (id in sent ==> sent[id] == key)
    requires forall k :: k in Held(out) <==> KeyId(k) in sent && sent[KeyId(k)] == k
    requires Held(after) == Held(out) + {key}
    ensures forall k :: k in Held(after) <==> KeyId(k) in sent[id := key] && sent[id := key][KeyId(k)] == k
  {
    forall k ensures k in Held(after) <==> KeyId(k) in sent[id := key] && sent[id := key][KeyId(k)] == k {
      KeyPressed(sent, Held(out), key, id, k, KeyId(k));
    }
  }

  /** The same for one key and its identifier. */
  lemma KeyPressed(sent: map<Id, Key>, held: set<Key>, key: Key, id: Id, k: Key, kid: Id)
    requires (k == key ==> kid == id) && (id in sent ==> sent[id] == key)
    requires k in held <==> kid in sent && sent[kid] == k
    ensures k in held + {key} <==> kid in sent[id := key] && sent[id := key][kid] == k
  {
  }

  lemma KeyReleased(sent: map<Id, Key>, held: set<Key>, key: Key, id: Id, k: Key, kid: Id)
    requires (k == key ==> kid == id) && id in sent && sent[id] == key
    requires k in held <==> kid in sent && sent[kid] == k
    ensures k in held - {key} <==> kid in sent - {id} && (sent - {id})[kid] == k
  {
  }

  /** A release keeps the balance exactly when the key is apart. */
  lemma ReleaseExactly(r: Router, key: Key)
    requires Balanced(r) && KeyId(key) in r.sentIds
    ensures Balanced(SendKey(r, key, false)) <==> Apart(r.sent, key)
  {
    Emit(r.out, KeyEvent(key, false));
    if Apart(r.sent, key) {
      assert key in Held(r.out);
      ReleasedMap(r.sent, r.out, key, KeyId(key), SendKey(r, key, false).out);
    } else {
      assert key !in Held(r.out);
    }
  }

  lemma ReleasedMap(sent: map<Id, Key>, out: seq<KeyEvent>, key: Key, id: Id, after: seq<KeyEvent>)
    requires KeyId(key) == id && id in sent && sent[id] == key
    requires forall k :: k in Held(out) <==> KeyId(k) in sent && sent[KeyId(k)] == k
    requires Held(after) == Held(out) - {key}
    ensures forall k :: k in Held(after) <==> KeyId(k) in sent - {id} && (sent - {id})[KeyId(k)] == k
  {
    forall k ensures k in Held(after) <==> KeyId(k) in sent - {id} && (sent - {id})[KeyId(k)] == k {
      KeyReleased(sent, Held(out), key, id, k, KeyId(k));
    }
  }

  /** Two keys under one identifier stay, whatever is pressed, and one of them outlives a release. */
  lemma DoubledStays(r: Router, key: Key)
    requires Doubled(Held(r.out))
    ensures Doubled(Held(SendKey(r, key, true).out))
    ensures !Balanced(SendKey(r, key, false))
  {
    var a, b :| a in Held(r.out) && b in Held(r.out) && a != b && KeyId(a) == KeyId(b);
    Emit(r.out, KeyEvent(key, true));
    Emit(r.out, KeyEvent(key, false));
    var t := SendKey(r, key, false);
    if a != key && b != key {
      assert a in Held(t.out) && b in Held(t.out);
      DoubledUnbalanced(t);
    } else {
      var left := if a == key then b else a;
      assert left in Held(t.out) && KeyId(left) == KeyId(key) && KeyId(left) !in t.sent;
    }
  }

  // ---------- the waiting modifiers ----------

  lemma {:induction false} SendAllExactly(r: Router, keys: seq<Key>)
    requires Balanced(r)
    ensures AllApart(r.sent, keys) ==> Balanced(SendAll(r, keys))
    ensures !AllApart(r.sent, keys) ==> Doubled(Held(SendAll(r, keys).out))
    decreases |keys|
  {
    if keys != [] {
      PressExactly(r, keys[0]);
      if Apart(r.sent, keys[0]) {
        SendAllExactly(SendKey(r, keys[0], true), keys[1..]);
      } else {
        SendAllDoubled(SendKey(r, keys[0], true), keys[1..]);
      }
    }
  }

  lemma {:induction false} SendAllDoubled(r: Router, keys: seq<Key>)
    requires Doubled(Held(r.out))
    ensures Doubled(Held(SendAll(r, keys).out))
    decreases |keys|
  {
    if keys != [] {
      DoubledStays(r, keys[0]);
      SendAllDoubled(SendKey(r, keys[0], true), keys[1..]);
    }
  }

  /** Sending keys changes what is sent, and nothing else. */
  lemma {:induction false} SendAllFrame(r: Router, keys: seq<Key>)
    ensures var t := SendAll(r, keys); t == r.(sent := t.sent, sentIds := t.sentIds, out := t.out)
    decreases |keys|
  {
    if keys != [] {
      SendAllFrame(SendKey(r, keys[0], true), keys[1..]);
    }
  }

  lemma {:induction false} AllApartLast(r: Router, keys: seq<Key>, key: Key)
    ensures AllApart(r.sent, keys + [key]) <==> AllApart(r.sent, keys) && Apart(SendAll(r, keys).sent, key)
    decreases |keys|
  {
    if keys == [] {
      assert keys + [key] == [key];
      assert [key][1..] == [];
    } else {
      assert (keys + [key])[1..] == keys[1..] + [key];
      AllApartLast(SendKey(r, keys[0], true), keys[1..], key);
    }
  }

  /** The waiting modifiers are sent, and behind them one key event. */
  lemma FlushThenSend(r: Router, key: Key, pressed: bool)
    requires Balanced(r) && r.mode.RemoteCapture?
    requires !pressed ==> KeyId(key) in FlushPending(r).sentIds
    ensures Balanced(SendKey(FlushPending(r), key, pressed)) <==> AllApart(r.sent, r.pending + [key])
  {
    var t := SendAll(r, r.pending);
    SendAllExactly(r, r.pending);
    SendAllFrame(r, r.pending);
    AllApartLast(r, r.pending, key);
    var u := FlushPending(r);
    if AllApart(r.sent, r.pending) {
      assert Balanced(u);
      if pressed {
        PressExactly(u, key);
        if !Apart(u.sent, key) {
          DoubledUnbalanced(SendKey(u, key, true));
        }
      } else {
        ReleaseExactly(u, key);
      }
    } else {
      DoubledStays(u, key);
      if pressed {
        DoubledUnbalanced(SendKey(u, key, true));
      }
    }
  }

  lemma FlushExactly(r: Router)
    requires Balanced(r) && r.mode.RemoteCapture?
    ensures Balanced(FlushPending(r)) <==> AllApart(r.sent, r.pending)
    ensures FlushPending(r).mode == r.mode && FlushPending(r).queue == r.queue
  {
    SendAllExactly(r, r.pending);
    SendAllFrame(r, r.pending);
    if !AllApart(r.sent, r.pending) {
      DoubledUnbalanced(FlushPending(r));
    }
  }

  // ---------- releasing everything ----------

  ghost function KeysOf(sent: map<Id, Key>, ids: seq<Id>): set<Key>
    requires forall i :: 0 <= i < |ids| ==> ids[i] in sent
  {
    set i | 0 <= i < |ids| :: sent[ids[i]]
  }

  lemma KeysOfLast(sent: map<Id, Key>, ids: seq<Id>)
    requires ids != [] && forall i :: 0 <= i < |ids| ==> ids[i] in sent
    requires forall i, j :: 0 <= i < j < |ids| ==> ids[i] != ids[j]
    requires forall i :: 0 <= i < |ids| ==> KeyId(sent[ids[i]]) == ids[i]
    ensures var n := |ids| - 1;
            && KeysOf(sent, ids) == KeysOf(sent, ids[..n]) + {sent[ids[n]]}
            && sent[ids[n]] !in KeysOf(sent, ids[..n])
  {
    var n := |ids| - 1;
    forall k | k in KeysOf(sent, ids) ensures k in KeysOf(sent, ids[..n]) + {sent[ids[n]]} {
      var i :| 0 <= i < |ids| && k == sent[ids[i]];
      if i < n {
        assert ids[..n][i] == ids[i];
      }
    }
    forall k | k in KeysOf(sent, ids[..n]) ensures k in KeysOf(sent, ids) {
      var i :| 0 <= i < n && k == sent[ids[..n][i]];
      assert ids[..n][i] == ids[i];
    }
  }

  /** Releasing the listed keys one after the other, each once, leaves the others held. */
  lemma {:induction false} ReleasesHeld(out: seq<KeyEvent>, sent: map<Id, Key>, ids: seq<Id>)
    requires (forall i :: 0 <= i < |ids| ==> ids[i] in sent) && Clean(out)
    requires forall i, j :: 0 <= i < j < |ids| ==> ids[i] != ids[j]
    requires forall i :: 0 <= i < |ids| ==> KeyId(sent[ids[i]]) == ids[i]
    requires KeysOf(sent, ids) <= Held(out)
    ensures Clean(out + Releases(sent, ids))
    ensures Held(out + Releases(sent, ids)) == Held(out) - KeysOf(sent, ids)
  {
    if ids == [] {
      assert out + Releases(sent, ids) == out;
    } else {
      var n := |ids| - 1;
      KeysOfLast(sent, ids);
      ReleasesHeld(out, sent, ids[..n]);
      var before := out + Releases(sent, ids[..n]);
      assert out + Releases(sent, ids) == before + [KeyEvent(sent[ids[n]], false)];
      Emit(before, KeyEvent(sent[ids[n]], false));
    }
  }

  /** The hash lists only sent keys, so every one of them is released. */
  lemma ReleaseSentIs(cfg: Config, r: Router)
    requires ConfigOk(cfg)
    ensures var ids := cfg.order(r.sent.Keys);
            && (forall i :: 0 <= i < |ids| ==> ids[i] in r.sent)
            && ReleaseSent(cfg, r) == r.(sent := map[], sentIds := {}, out := r.out + Releases(r.sent, ids))
  {
    var ids := cfg.order(r.sent.Keys);
    assert ListsOnce(ids, r.sent.Keys);
    forall i | 0 <= i < |ids| ensures ids[i] in r.sent {
      assert ids[i] in ids;
    }
  }

  lemma ReleaseSentBalanced(cfg: Config, r: Router)
    requires ConfigOk(cfg) && Balanced(r)
    ensures var t := ReleaseSent(cfg, r);
            Balanced(t) && t.sent == map[] && t == r.(sent := map[], sentIds := {}, out := t.out)
  {
    var ids := cfg.order(r.sent.Keys);
    assert ListsOnce(ids, r.sent.Keys);
    forall i | 0 <= i < |ids| ensures ids[i] in r.sent.Keys {
      assert ids[i] in ids;
    }
    forall i | 0 <= i < |ids| ensures r.sent[ids[i]] in Held(r.out) {
      assert KeyId(r.sent[ids[i]]) == ids[i];
    }
    ReleasesHeld(r.out, r.sent, ids);
    var t := ReleaseSent(cfg, r);
    forall k ensures k !in Held(t.out) {
      if k in Held(r.out) {
        assert KeyId(k) in ids;
        assert k in KeysOf(r.sent, ids);
      }
    }
  }

  // ---------- every handler ----------

  /** The keys that the handler presses or releases if their identifiers are sent, in order. */
  function Touched(cfg: Config, r: Router, e: Event): seq<Key> {
    match e
    case KeyboardEvent(key, pressed, eligible, _) =>
      if r.mode.RemoteCapture? && eligible then TouchedByKey(cfg, r, key, pressed) else []
    case FlushRequested => if r.mode.RemoteCapture? then r.pending else []
    case _ => []
  }

  function TouchedByKey(cfg: Config, r: Router, key: Key, pressed: bool): seq<Key> {
    if cfg.isModifier(key.vk) then
      if pressed || key.vk in r.consumed then [] else r.pending + [key]
    else if !pressed then
      if key.vk in r.consumed then [] else [key]
    else if cfg.shortcut(key.vk, r.physical).NoShortcut? then r.pending + [key]
    else []
  }

  lemma ReleaseCaptureOk(cfg: Config, r: Router)
    requires ConfigOk(cfg) && HandledOk(r)
    ensures HandledOk(ReleaseCapture(cfg, r)) && ReleaseCapture(cfg, r).queue == r.queue
  {
    ReleaseSentBalanced(cfg, r);
  }

  lemma FocusLostOk(cfg: Config, r: Router)
    requires ConfigOk(cfg) && HandledOk(r)
    ensures HandledOk(FocusLost(cfg, r)) && FocusLost(cfg, r).queue == r.queue
    ensures !FocusLost(cfg, r).mode.RemoteCapture? && FocusLost(cfg, r).sent == map[]
  {
    ReleaseSentBalanced(cfg, r);
  }

  lemma StopHookOk(r: Router)
    requires HandledOk(r) && !r.mode.RemoteCapture?
    ensures HandledOk(StopHook(r)) && HandledOk(StopHook(r).(mode := RemoteCapture))
    ensures HandledOk(StopHook(r).(mode := Recording))
  {
  }

  lemma ModifierExactly(r: Router, key: Key, pressed: bool)
    requires Balanced(r) && r.mode.RemoteCapture?
    ensures var t := ModifierEvent(r, key, pressed);
            && t.mode == r.mode && t.queue == r.queue
            && (Balanced(t) <==> pressed || key.vk in r.consumed || AllApart(r.sent, r.pending + [key]))
  {
    if !pressed && key.vk !in r.consumed {
      var s := r.(physical := r.physical - {key.vk});
      FlushExactly(s);
      if KeyId(key) in FlushPending(s).sentIds {
        FlushThenSend(s, key, false);
      } else {
        AllApartLast(s, s.pending, key);
        SendAllIds(s, s.pending);
      }
    }
  }

  lemma {:induction false} SendAllIds(r: Router, keys: seq<Key>)
    requires r.sentIds == r.sent.Keys
    ensures SendAll(r, keys).sentIds == SendAll(r, keys).sent.Keys
    decreases |keys|
  {
    if keys != [] {
      SendAllIds(SendKey(r, keys[0], true), keys[1..]);
    }
  }

  lemma CaptureExactly(cfg: Config, r: Router, key: Key, pressed: bool)
    requires Balanced(r) && r.mode.RemoteCapture?
    ensures var t := CaptureEvent(cfg, r, key, pressed);
            && t.mode == r.mode
            && (Balanced(t) <==> AllApart(r.sent, TouchedByKey(cfg, r, key, pressed)))
            && (t.queue == r.queue
                || (TouchedByKey(cfg, r, key, pressed) == [] && t.queue == r.queue + [ReleaseCaptureCall]))
  {
    if cfg.isModifier(key.vk) {
      ModifierExactly(r, key, pressed);
    } else if !pressed {
      assert AllApart(r.sent, [key]) <==> Apart(r.sent, key) by {
        assert [key][1..] == [];
      }
      if key.vk !in r.consumed && KeyId(key) in r.sentIds {
        ReleaseExactly(r, key);
      }
    } else if cfg.shortcut(key.vk, r.physical).NoShortcut? {
      FlushThenSend(r, key, true);
      FlushExactly(r);
    }
  }

  /** The handler queued at most one call, a `stopHook` only outside the capture mode, and none if it
      sent keys. */
  ghost predicate QueuesOne(r: Router, t: Router, touched: seq<Key>) {
    t.queue == r.queue
    || (touched == []
        && exists q :: t.queue == r.queue + [q] && (q.StopHookCall? ==> !t.mode.RemoteCapture?))
  }

  lemma PostOk(r: Router, q: Queued)
    requires HandledOk(r) && (q.StopHookCall? ==> !r.mode.RemoteCapture?)
    ensures HandledOk(Post(r, q)) && QueuesOne(r, Post(r, q), [])
  {
    assert Post(r, q).queue == r.queue + [q];
  }

  lemma KeyboardExactly(cfg: Config, r: Router, e: Event)
    requires HandledOk(r) && e.KeyboardEvent?
    ensures HandledOk(Handle(cfg, r, e)) <==> AllApart(r.sent, Touched(cfg, r, e))
    ensures QueuesOne(r, Handle(cfg, r, e), Touched(cfg, r, e))
  {
    match r.mode
    case RemoteCapture =>
      if e.eligible {
        CaptureExactly(cfg, r, e.key, e.pressed);
      } else {
        PostOk(r, FocusLostCall);
      }
    case Draining =>
      PostOk(r.(physical := r.physical - {e.key.vk}, consumed := r.consumed - {e.key.vk}), StopHookCall);
    case Recording =>
      PostOk(r, CancelRecordingCall);
      PostOk(r, StopHookCall);
    case Inactive =>
  }

  /** A handler keeps the balance exactly when every key it touches is apart from the others. */
  lemma HandleExactly(cfg: Config, r: Router, e: Event)
    requires ConfigOk(cfg) && HandledOk(r)
    ensures HandledOk(Handle(cfg, r, e)) <==> AllApart(r.sent, Touched(cfg, r, e))
    ensures QueuesOne(r, Handle(cfg, r, e), Touched(cfg, r, e))
  {
    match e
    case KeyboardEvent(_, _, _, _) => KeyboardExactly(cfg, r, e);
    case CaptureRequested(eligible, started) =>
      if !r.mode.RemoteCapture? {
        StopHookOk(r);
      }
    case CaptureReleased => ReleaseCaptureOk(cfg, r);
    case FocusIsLost => FocusLostOk(cfg, r);
    case FlushRequested =>
      if r.mode.RemoteCapture? {
        FlushExactly(r);
      }
    case RecordingRequested(valid, started) =>
      FocusLostOk(cfg, r);
      StopHookOk(FocusLost(cfg, r));
    case RecordingEnds =>
  }

  /** A queued call keeps the balance exactly when it is not a `stopHook` that finds keys sent. */
  lemma QueuedKeepsExactly(cfg: Config, r: Router, q: Queued)
    requires ConfigOk(cfg) && HandledOk(r)
    ensures RunQueued(cfg, r, q).queue == r.queue
    ensures HandledOk(RunQueued(cfg, r, q)) <==> !(q.StopHookCall? && r.sent != map[])
  {
    match q
    case StopHookCall => assert StopHook(r).sent == r.sent && !StopHook(r).mode.RemoteCapture?;
    case ReleaseCaptureCall => ReleaseCaptureOk(cfg, r);
    case FocusLostCall => FocusLostOk(cfg, r);
    case CancelRecordingCall =>
  }

  // ---------- queued calls before the next event ----------

  /** No handler touches a key while its identifier is sent for another one. */
  predicate ClashFree(cfg: Config, r: Router, es: seq<Event>)
    decreases |es|
  {
    es != [] ==> AllApart(r.sent, Touched(cfg, r, es[0])) && ClashFree(cfg, Turn(cfg, r, es[0]), es[1..])
  }

  /** The balance holds now and after every turn. */
  ghost predicate StaysBalanced(cfg: Config, r: Router, es: seq<Event>)
    decreases |es|
  {
    HandledOk(r) && (es != [] ==> StaysBalanced(cfg, Turn(cfg, r, es[0]), es[1..]))
  }

  lemma TurnExactly(cfg: Config, r: Router, e: Event)
    requires ConfigOk(cfg) && HandledOk(r) && r.queue == []
    ensures HandledOk(Turn(cfg, r, e)) <==> AllApart(r.sent, Touched(cfg, r, e))
    ensures Turn(cfg, r, e).queue == []
  {
    HandleExactly(cfg, r, e);
    var s := Handle(cfg, r, e);
    var t := s.(queue := []);
    if s.queue != [] {
      assert Touched(cfg, r, e) == [];
      QueuedKeepsExactly(cfg, t, s.queue[0]);
      assert s.queue[1..] == [];
      assert RunAll(cfg, t, s.queue) == RunQueued(cfg, t, s.queue[0]);
    }
  }

  /** When queued calls run before the next event, the balance holds throughout a run if and only if
      no key is pressed or released while its identifier stands for a different key. */
  lemma {:induction false} TurnsExactly(cfg: Config, r: Router, es: seq<Event>)
    requires ConfigOk(cfg) && HandledOk(r) && r.queue == []
    ensures StaysBalanced(cfg, r, es) <==> ClashFree(cfg, r, es)
    ensures ClashFree(cfg, r, es) ==> HandledOk(Turns(cfg, r, es))
    decreases |es|
  {
    if es != [] {
      var t := Turn(cfg, r, es[0]);
      TurnExactly(cfg, r, es[0]);
      if HandledOk(t) {
        TurnsExactly(cfg, t, es[1..]);
      } else {
        assert !StaysBalanced(cfg, t, es[1..]);
      }
    }
  }

  /** Key balance: when queued calls run before the next event, then the keys held on the remote side
      are, after every event, exactly the remembered ones, no key was ever released that was not held,
      and outside the capture mode nothing is held - if and only if no key is pressed or released while
      its identifier stands for a different key. */
  lemma KeyBalance(cfg: Config, es: seq<Event>)
    requires ConfigOk(cfg)
    ensures StaysBalanced(cfg, NEW_ROUTER, es) <==> ClashFree(cfg, NEW_ROUTER, es)
    ensures ClashFree(cfg, NEW_ROUTER, es) ==>
              var r := Turns(cfg, NEW_ROUTER, es);
              && (forall k :: k in Held(r.out) <==> KeyId(k) in r.sent && r.sent[KeyId(k)] == k)
              && Clean(r.out)
              && r.sentIds == r.sent.Keys
              && (!r.mode.RemoteCapture? ==> Held(r.out) == {})
  {
    TurnsExactly(cfg, NEW_ROUTER, es);
    var r := Turns(cfg, NEW_ROUTER, es);
    if ClashFree(cfg, NEW_ROUTER, es) && !r.mode.RemoteCapture? {
      assert forall k :: k !in Held(r.out);
    }
  }

  // ---------- keys that never clash ----------

  /** No two of the keys share an identifier. */
  ghost predicate DistinctIds(keys: iset<Key>) {
    forall a, b :: a in keys && b in keys && KeyId(a) == KeyId(b) ==> a == b
  }

  predicate KeyIn(e: Event, keys: iset<Key>) {
    e.KeyboardEvent? ==> e.key in keys
  }

  /** Only the given keys wait or are sent. */
  ghost predicate Among(r: Router, keys: iset<Key>) {
    && (forall i :: 0 <= i < |r.pending| ==> r.pending[i] in keys)
    && (forall id :: id in r.sent ==> r.sent[id] in keys && KeyId(r.sent[id]) == id)
  }

  lemma {:induction false} AmongApart(r: Router, ks: seq<Key>, keys: iset<Key>)
    requires DistinctIds(keys) && Among(r, keys) && forall i :: 0 <= i < |ks| ==> ks[i] in keys
    ensures AllApart(r.sent, ks) && Among(SendAll(r, ks), keys)
    decreases |ks|
  {
    if ks != [] {
      assert ks[0] in keys;
      var t := SendKey(r, ks[0], true);
      assert t.sent == r.sent[KeyId(ks[0]) := ks[0]] && Among(t, keys);
      AmongApart(t, ks[1..], keys);
    }
  }

  lemma TouchedAmong(cfg: Config, r: Router, e: Event, keys: iset<Key>)
    requires Among(r, keys) && KeyIn(e, keys)
    ensures forall i :: 0 <= i < |Touched(cfg, r, e)| ==> Touched(cfg, r, e)[i] in keys
  {
  }

  lemma FlushAmong(r: Router, keys: iset<Key>)
    requires DistinctIds(keys) && Among(r, keys)
    ensures Among(FlushPending(r), keys)
  {
    AmongApart(r, r.pending, keys);
    SendAllFrame(r, r.pending);
  }

  lemma ReleaseAmong(r: Router, key: Key, keys: iset<Key>)
    requires Among(r, keys)
    ensures Among(SendKey(r, key, false), keys)
  {
  }

  lemma PressAmong(r: Router, key: Key, keys: iset<Key>)
    requires Among(r, keys) && key in keys
    ensures Among(SendKey(r, key, true), keys)
  {
    var t := SendKey(r, key, true);
    assert t.sent == r.sent[KeyId(key) := key];
  }

  lemma CaptureAmong(cfg: Config, r: Router, key: Key, pressed: bool, keys: iset<Key>)
    requires DistinctIds(keys) && Among(r, keys) && key in keys
    ensures Among(CaptureEvent(cfg, r, key, pressed), keys)
  {
    if cfg.isModifier(key.vk) {
      if !pressed {
        var s := r.(physical := r.physical - {key.vk});
        FlushAmong(s, keys);
        ReleaseAmong(FlushPending(s), key, keys);
      }
    } else if !pressed {
      ReleaseAmong(r, key, keys);
    } else {
      FlushAmong(r, keys);
      PressAmong(FlushPending(r), key, keys);
    }
  }

  lemma HandleAmong(cfg: Config, r: Router, e: Event, keys: iset<Key>)
    requires DistinctIds(keys) && Among(r, keys) && KeyIn(e, keys)
    ensures Among(Handle(cfg, r, e), keys)
  {
    match e
    case KeyboardEvent(key, pressed, eligible, _) =>
      CaptureAmong(cfg, r, key, pressed, keys);
    case FlushRequested => FlushAmong(r, keys);
    case _ =>
  }

  lemma QueuedAmong(cfg: Config, r: Router, q: Queued, keys: iset<Key>)
    requires Among(r, keys)
    ensures Among(RunQueued(cfg, r, q), keys)
  {
  }

  lemma {:induction false} DistinctNeverClash(cfg: Config, r: Router, es: seq<Event>, keys: iset<Key>)
    requires ConfigOk(cfg) && HandledOk(r) && r.queue == [] && DistinctIds(keys) && Among(r, keys)
    requires forall i :: 0 <= i < |es| ==> KeyIn(es[i], keys)
    ensures ClashFree(cfg, r, es)
    decreases |es|
  {
    if es != [] {
      assert KeyIn(es[0], keys);
      TouchedAmong(cfg, r, es[0], keys);
      AmongApart(r, Touched(cfg, r, es[0]), keys);
      HandleAmong(cfg, r, es[0], keys);
      HandleExactly(cfg, r, es[0]);
      var s := Handle(cfg, r, es[0]);
      var t := s.(queue := []);
      if s.queue != [] {
        QueuedAmong(cfg, t, s.queue[0], keys);
        assert s.queue[1..] == [];
        assert RunAll(cfg, t, s.queue) == RunQueued(cfg, t, s.queue[0]);
      }
      TurnExactly(cfg, r, es[0]);
      DistinctNeverClash(cfg, Turn(cfg, r, es[0]), es[1..], keys);
    }
  }

  /** With keys whose identifiers are pairwise different the balance always holds. */
  lemma DistinctKeysBalance(cfg: Config, es: seq<Event>, keys: iset<Key>)
    requires ConfigOk(cfg) && DistinctIds(keys) && forall i :: 0 <= i < |es| ==> KeyIn(es[i], keys)
    ensures StaysBalanced(cfg, NEW_ROUTER, es)
  {
    DistinctNeverClash(cfg, NEW_ROUTER, es, keys);
    KeyBalance(cfg, es);
  }

  /** Keys without a fake scan code: an 8-bit virtual key and a scan code below 0x200. */
  predicate Plain(k: Key) { k.vk < 256 && k.scan < 512 }

  lemma KeyIdInjective(a: Key, b: Key)
    requires Plain(a) && Plain(b) && KeyId(a) == KeyId(b)
    ensures a == b
  {
  }

  /** The left Ctrl that comes with AltGr, and the one plain key with its identifier. */
  const ALT_GR_CTRL := Key(0xa2, 0x21d, false)
  const ALT_GR_TWIN := Key(0xa2, 0x1d, true)

  lemma AltGrTwin(k: Key)
    requires Plain(k)
    ensures KeyId(k) == KeyId(ALT_GR_CTRL) <==> k == ALT_GR_TWIN
  {
  }

  /** A keyboard with AltGr: plain keys other than the twin, and the left Ctrl of AltGr. */
  predicate WithAltGr(k: Key) { (Plain(k) && k != ALT_GR_TWIN) || k == ALT_GR_CTRL }

  lemma PlainOrAltGrDistinct()
    ensures DistinctIds(iset k | Plain(k)) && DistinctIds(iset k | WithAltGr(k))
  {
    forall a: Key, b: Key | WithAltGr(a) && WithAltGr(b) && KeyId(a) == KeyId(b) ensures a == b {
      if Plain(a) && Plain(b) {
        KeyIdInjective(a, b);
      } else if Plain(a) {
        AltGrTwin(a);
      } else if Plain(b) {
        AltGrTwin(b);
      }
    }
    forall a: Key, b: Key | Plain(a) && Plain(b) && KeyId(a) == KeyId(b) ensures a == b {
      KeyIdInjective(a, b);
    }
  }

  /** Plain keys, and keyboards with AltGr, always keep the balance. */
  lemma PlainKeysBalance(cfg: Config, es: seq<Event>)
    requires ConfigOk(cfg)
    requires || (forall i :: 0 <= i < |es| && es[i].KeyboardEvent? ==> Plain(es[i].key))
             || (forall i :: 0 <= i < |es| && es[i].KeyboardEvent? ==> WithAltGr(es[i].key))
    ensures StaysBalanced(cfg, NEW_ROUTER, es)
  {
    PlainOrAltGrDistinct();
    if forall i :: 0 <= i < |es| && es[i].KeyboardEvent? ==> Plain(es[i].key) {
      DistinctKeysBalance(cfg, es, iset k | Plain(k));
    } else {
      DistinctKeysBalance(cfg, es, iset k | WithAltGr(k));
    }
  }

  /** Two keys with one identifier: the release of the second forgets the first, which stays held.
      The second is an extended left Ctrl from the keyboard itself. The capture adapter hands on no
      injected event (windowsremotekeyboardcaptureadapter.cpp:153-154), so only an unusual keyboard
      layout delivers it. */
  lemma CollidingKeysStrand(cfg: Config)
    requires ConfigOk(cfg) && cfg.isModifier(0xa2)
    ensures var es := [CaptureRequested(true, true), KeyboardEvent(ALT_GR_CTRL, true, true, false),
                       KeyboardEvent(ALT_GR_TWIN, false, true, false)];
            var r := Turns(cfg, NEW_ROUTER, es);
            && r.mode.RemoteCapture? && Held(r.out) == {ALT_GR_CTRL} && r.sent == map[] && !Clean(r.out)
            && !ClashFree(cfg, NEW_ROUTER, es)
  {
    var a := Turn(cfg, NEW_ROUTER, CaptureRequested(true, true));
    var b := Turn(cfg, a, KeyboardEvent(ALT_GR_CTRL, true, true, false));
    assert b.pending == [ALT_GR_CTRL] && b.out == [] && b.sent == map[] && b.queue == [];
    CollidingRelease(cfg, b);
    var e := KeyboardEvent(ALT_GR_TWIN, false, true, false);
    var es := [CaptureRequested(true, true), KeyboardEvent(ALT_GR_CTRL, true, true, false), e];
    assert Turns(cfg, NEW_ROUTER, es) == Turns(cfg, a, es[1..]);
    assert es[1..][1..] == [e];
    assert Turns(cfg, a, es[1..]) == Turns(cfg, b, [e]);
    assert [e][1..] == [];
    assert Turns(cfg, b, [e]) == Turns(cfg, Turn(cfg, b, e), []);
    TurnsExactly(cfg, NEW_ROUTER, es);
  }

  lemma CollidingRelease(cfg: Config, b: Router)
    requires cfg.isModifier(0xa2) && b.mode.RemoteCapture? && b.pending == [ALT_GR_CTRL] && b.out == []
    requires b.sent == map[] && b.sentIds == {} && b.queue == [] && b.consumed == {}
    ensures var t := Turn(cfg, b, KeyboardEvent(ALT_GR_TWIN, false, true, false));
            && t.mode.RemoteCapture? && Held(t.out) == {ALT_GR_CTRL} && t.sent == map[] && !Clean(t.out)
    ensures !AllApart(b.sent, Touched(cfg, b, KeyboardEvent(ALT_GR_TWIN, false, true, false)))
  {
    AltGrTwin(ALT_GR_TWIN);
    var s := b.(physical := b.physical - {0xa2});
    var t := SendKey(s, ALT_GR_CTRL, true);
    assert b.pending[1..] == [];
    assert SendAll(s, s.pending) == SendAll(t, []);
    assert FlushPending(s) == t.(pending := []);
    Emit([], KeyEvent(ALT_GR_CTRL, true));
    assert t.out == [] + [KeyEvent(ALT_GR_CTRL, true)];
    Emit(t.out, KeyEvent(ALT_GR_TWIN, false));
    AllApartLast(b, b.pending, ALT_GR_TWIN);
  }

  // ---------- queued calls that run late ----------

  /** The event loop with nothing assumed: an event arrives, or the oldest queued call runs. */
  datatype LoopStep = Deliver(event: Event) | RunOldest

  function LoopNext(cfg: Config, r: Router, step: LoopStep): Router {
    match step
    case Deliver(e) => Handle(cfg, r, e)
    case RunOldest => if r.queue == [] then r else RunQueued(cfg, r.(queue := r.queue[1..]), r.queue[0])
  }

  ghost predicate AlwaysBalanced(cfg: Config, r: Router, steps: seq<LoopStep>)
    decreases |steps|
  {
    HandledOk(r) && (steps != [] ==> AlwaysBalanced(cfg, LoopNext(cfg, r, steps[0]), steps[1..]))
  }

  /** No clash of identifiers, and no `stopHook` while keys are sent. */
  predicate StepOk(cfg: Config, r: Router, step: LoopStep) {
    match step
    case Deliver(e) => AllApart(r.sent, Touched(cfg, r, e))
    case RunOldest => r.queue != [] && r.queue[0].StopHookCall? ==> r.sent == map[]
  }

  predicate Orderly(cfg: Config, r: Router, steps: seq<LoopStep>)
    decreases |steps|
  {
    steps != [] ==> StepOk(cfg, r, steps[0]) && Orderly(cfg, LoopNext(cfg, r, steps[0]), steps[1..])
  }

  /** However late the queued calls run, the balance holds throughout if and only if no `stopHook`
      runs while keys are sent and no handler touches a key while its identifier stands for another. */
  lemma {:induction false} BalancedExactly(cfg: Config, r: Router, steps: seq<LoopStep>)
    requires ConfigOk(cfg) && HandledOk(r)
    ensures AlwaysBalanced(cfg, r, steps) <==> Orderly(cfg, r, steps)
    decreases |steps|
  {
    if steps != [] {
      var t := LoopNext(cfg, r, steps[0]);
      LoopStepKeeps(cfg, r, steps[0]);
      if HandledOk(t) {
        BalancedExactly(cfg, t, steps[1..]);
      } else {
        assert !AlwaysBalanced(cfg, t, steps[1..]);
      }
    }
  }

  lemma LoopStepKeeps(cfg: Config, r: Router, step: LoopStep)
    requires ConfigOk(cfg) && HandledOk(r)
    ensures HandledOk(LoopNext(cfg, r, step)) <==> StepOk(cfg, r, step)
  {
    match step
    case Deliver(e) => HandleExactly(cfg, r, e);
    case RunOldest =>
      if r.queue != [] {
        QueuedKeepsExactly(cfg, r.(queue := r.queue[1..]), r.queue[0]);
      }
  }

  const CTRL := Key(0x11, 0x1d, false)
  const LETTER := Key(0x41, 0x1e, false)

  /** When a queued `stopHook` runs only after the next events, a key can stay pressed on the remote
      side although the hook is gone: the capture drains, is requested again and sends a key before
      the queued call ends it without a release. */
  lemma LateStopHookStrandsKey(cfg: Config)
    requires ConfigOk(cfg) && cfg.isModifier(0x11) && !cfg.isModifier(0x41) && cfg.shortcut(0x41, {}) == NoShortcut
    ensures var a := Handle(cfg, NEW_ROUTER, CaptureRequested(true, true));
            var b := Handle(cfg, a, KeyboardEvent(CTRL, true, true, false));
            var c := Handle(cfg, b, CaptureReleased);
            var d := Handle(cfg, c, KeyboardEvent(CTRL, false, true, false));
            var e := Handle(cfg, d, CaptureRequested(true, true));
            var f := Handle(cfg, e, KeyboardEvent(LETTER, true, true, false));
            var g := RunAll(cfg, f.(queue := []), f.queue);
            g.mode.Inactive? && Held(g.out) == {LETTER}
  {
    var a := Handle(cfg, NEW_ROUTER, CaptureRequested(true, true));
    var b := Handle(cfg, a, KeyboardEvent(CTRL, true, true, false));
    assert b.physical == {0x11} && b.sent == map[] && b.out == [];
    NothingSent(cfg, b);
    var c := Handle(cfg, b, CaptureReleased);
    assert c.mode.Draining? && c.out == [] && c.physical == {0x11};
    var d := Handle(cfg, c, KeyboardEvent(CTRL, false, true, false));
    assert d.physical == {} && d.queue == [StopHookCall];
    var e := Handle(cfg, d, CaptureRequested(true, true));
    assert e.mode.RemoteCapture? && e.pending == [] && e.queue == [StopHookCall];
    var f := Handle(cfg, e, KeyboardEvent(LETTER, true, true, false));
    assert f.out == [KeyEvent(LETTER, true)];
    Emit([], KeyEvent(LETTER, true));
    assert [] + [KeyEvent(LETTER, true)] == [KeyEvent(LETTER, true)];
  }

  lemma NothingSent(cfg: Config, r: Router)
    requires ConfigOk(cfg) && r.sent == map[]
    ensures ReleaseSent(cfg, r) == r.(sentIds := {})
  {
    var ids := cfg.order(r.sent.Keys);
    if ids != [] {
      SomeListed(ids, r.sent.Keys);
    }
    assert r.out + Releases(r.sent, ids) == r.out;
  }

  lemma SomeListed(ids: seq<Id>, s: set<Id>)
    requires ListsOnce(ids, s) && ids != []
    ensures ids[0] in s
  {
    assert ids[0] in ids;
  }

  // ---------- the service ----------

  class RemoteKeyboardRoutingService {
    const cfg: Config
    var mode: Mode
    var pendingModifiers: seq<Key>
    var physicalModifierKeys: set<bv32>
    var consumedVirtualKeys: set<bv32>
    var sentRemoteKeyIds: set<Id>
    var sentRemoteKeys: map<Id, Key>
    var queue: seq<Queued>
    var out: seq<KeyEvent>

    function View(): Router
      reads this
    {
      Router(mode, pendingModifiers, physicalModifierKeys, consumedVirtualKeys, sentRemoteKeyIds, sentRemoteKeys,
             queue, out)
    }

    constructor (cfg: Config)
      ensures View() == NEW_ROUTER && this.cfg == cfg
    {
      this.cfg := cfg;
      mode, pendingModifiers, physicalModifierKeys, consumedVirtualKeys := Inactive, [], {}, {};
      sentRemoteKeyIds, sentRemoteKeys, queue, out := {}, map[], [], [];
    }

    method InvokeLater(q: Queued)
      modifies this`queue
      ensures View() == Post(old(View()), q)
    {
      queue := queue + [q];
    }

    method SendRemoteKey(key: Key, pressed: bool)
      modifies this`sentRemoteKeyIds, this`sentRemoteKeys, this`out
      ensures View() == SendKey(old(View()), key, pressed)
    {
      var id := KeyId(key);
      if pressed {
        sentRemoteKeyIds := sentRemoteKeyIds + {id};
        sentRemoteKeys := sentRemoteKeys[id := key];
      } else {
        sentRemoteKeyIds := sentRemoteKeyIds - {id};
        sentRemoteKeys := sentRemoteKeys - {id};
      }
      out := out + [KeyEvent(key, pressed)];
    }

    method FlushPendingModifiers()
      modifies this`sentRemoteKeyIds, this`sentRemoteKeys, this`out, this`pendingModifiers
      ensures View() == FlushPending(old(View()))
    {
      if !mode.RemoteCapture? {
        return;
      }
      var i := 0;
      while i < |pendingModifiers|
        invariant i <= |pendingModifiers| && pendingModifiers == old(pendingModifiers)
        invariant SendAll(View(), pendingModifiers[i..]) == SendAll(old(View()), pendingModifiers)
      {
        SendRemoteKey(pendingModifiers[i], true);
        i := i + 1;
      }
      pendingModifiers := [];
      assert View() == FlushPending(old(View()));
    }

    method ReleaseSentRemoteKeys()
      requires ConfigOk(cfg)
      modifies this`sentRemoteKeyIds, this`sentRemoteKeys, this`out
      ensures View() == ReleaseSent(cfg, old(View()))
    {
      var keys := sentRemoteKeys;
      var ids := cfg.order(keys.Keys);
      assert ListsOnce(ids, keys.Keys);
      forall i | 0 <= i < |ids| ensures ids[i] in keys {
        assert ids[i] in ids;
      }
      sentRemoteKeys := map[];
      sentRemoteKeyIds := {};
      for i := 0 to |ids|
        invariant sentRemoteKeys == map[] && sentRemoteKeyIds == {}
        invariant out == old(out) + Releases(keys, ids)[..i]
      {
        out := out + [KeyEvent(keys[ids[i]], false)];
      }
      assert Releases(keys, ids)[..|ids|] == Releases(keys, ids);
      ReleaseSentIs(cfg, old(View()));
    }

    method StopKeyboardHook()
      modifies this`mode, this`pendingModifiers, this`physicalModifierKeys, this`consumedVirtualKeys
      ensures View() == StopHook(old(View()))
    {
      mode := Inactive;
      pendingModifiers := [];
      physicalModifierKeys := {};
      consumedVirtualKeys := {};
    }

    method ReleaseKeyboardCapture()
      requires ConfigOk(cfg)
      modifies this
      ensures View() == ReleaseCapture(cfg, old(View()))
    {
      if !mode.RemoteCapture? && !mode.Draining? {
        return;
      }
      ReleaseSentRemoteKeys();
      pendingModifiers := [];
      if physicalModifierKeys == {} && consumedVirtualKeys == {} {
        StopKeyboardHook();
      } else {
        mode := Draining;
      }
    }

    method HandleVideoFocusLost()
      requires ConfigOk(cfg)
      modifies this
      ensures View() == FocusLost(cfg, old(View()))
    {
      if !mode.RemoteCapture? && !mode.Draining? {
        return;
      }
      ReleaseSentRemoteKeys();
      StopKeyboardHook();
    }

    method RequestKeyboardCapture(eligible: bool, started: bool)
      modifies this
      ensures View() == RequestCapture(old(View()), eligible, started)
    {
      if !eligible || mode.RemoteCapture? {
        return;
      }
      StopKeyboardHook();
      if started {
        mode := RemoteCapture;
      }
    }

    method BeginShortcutRecording(valid: bool, started: bool)
      requires ConfigOk(cfg)
      modifies this
      ensures View() == BeginRecording(cfg, old(View()), valid, started)
    {
      if !valid {
        return;
      }
      HandleVideoFocusLost();
      StopKeyboardHook();
      if started {
        mode := Recording;
      }
    }

    method CancelShortcutRecording()
      modifies this
      ensures View() == CancelRecording(old(View()))
    {
      if mode.Recording? {
        StopKeyboardHook();
      }
    }

    method ConsumeShortcut(vk: bv32)
      modifies this`consumedVirtualKeys, this`pendingModifiers
      ensures View() == Consume(cfg, old(View()), vk)
    {
      consumedVirtualKeys := consumedVirtualKeys + physicalModifierKeys + {cfg.normalize(vk)};
      pendingModifiers := [];
    }

    method HandleModifierEvent(key: Key, pressed: bool)
      modifies this
      ensures View() == ModifierEvent(old(View()), key, pressed)
    {
      if pressed {
        if key.vk !in physicalModifierKeys {
          physicalModifierKeys := physicalModifierKeys + {key.vk};
          pendingModifiers := pendingModifiers + [key];
        }
        return;
      }
      physicalModifierKeys := physicalModifierKeys - {key.vk};
      if key.vk in consumedVirtualKeys {
        consumedVirtualKeys := consumedVirtualKeys - {key.vk};
        return;
      }
      FlushPendingModifiers();
      if KeyId(key) in sentRemoteKeyIds {
        SendRemoteKey(key, false);
      }
    }

    method HandleRemoteCaptureEvent(key: Key, pressed: bool)
      modifies this
      ensures View() == CaptureEvent(cfg, old(View()), key, pressed)
    {
      if cfg.isModifier(key.vk) {
        HandleModifierEvent(key, pressed);
        return;
      }
      if !pressed {
        if key.vk in consumedVirtualKeys {
          consumedVirtualKeys := consumedVirtualKeys - {key.vk};
        } else if KeyId(key) in sentRemoteKeyIds {
          SendRemoteKey(key, false);
        }
        return;
      }
      match cfg.shortcut(key.vk, physicalModifierKeys)
      case ReleaseCaptureShortcut =>
        ConsumeShortcut(key.vk);
        InvokeLater(ReleaseCaptureCall);
      case FullscreenShortcut => ConsumeShortcut(key.vk);
      case LocalOnlyShortcut => ConsumeShortcut(key.vk);
      case NoShortcut =>
        FlushPendingModifiers();
        SendRemoteKey(key, true);
    }

    method HandleRecordingEvent(key: Key, pressed: bool, escape: bool)
      modifies this
      ensures View() == RecordingEvent(cfg, old(View()), key, pressed, escape)
    {
      if cfg.isModifier(key.vk) {
        physicalModifierKeys := if pressed then physicalModifierKeys + {key.vk} else physicalModifierKeys - {key.vk};
        return;
      }
      if pressed {
        InvokeLater(if escape then CancelRecordingCall else StopHookCall);
      }
    }

    method HandleKeyboardEvent(key: Key, pressed: bool, eligible: bool, escape: bool)
      modifies this
      ensures View() == Keyboard(cfg, old(View()), key, pressed, eligible, escape)
    {
      if mode.Recording? {
        HandleRecordingEvent(key, pressed, escape);
        return;
      }
      if mode.Draining? {
        if !pressed {
          physicalModifierKeys := physicalModifierKeys - {key.vk};
          consumedVirtualKeys := consumedVirtualKeys - {key.vk};
          if physicalModifierKeys == {} && consumedVirtualKeys == {} {
            InvokeLater(StopHookCall);
          }
        }
        return;
      }
      if !mode.RemoteCapture? {
        return;
      }
      if !eligible {
        InvokeLater(FocusLostCall);
        return;
      }
      HandleRemoteCaptureEvent(key, pressed);
    }
  }
}
