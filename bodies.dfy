/** The marquee's ordered list of live bodies, as values: spawning a body for
    a character, capacity eviction from the front of the list, and boundary
    culling. The physics engine owns positions; here a body is its identity,
    the character it shows, its colour and wherever the engine last put it. */
module BodyList {

  /** Which feed a character came from; left-feed bodies enter at the left edge. */
  datatype Side = Left | Right

  function Other(side: Side): Side {
    if side == Left then Right else Left
  }

  /** The cap on live bodies (MAX_BODIES). */
  const MaxBodies: nat := 200

  /** Body radius R, in pixels. */
  const Radius: real := 16.0

  /** How far past an edge a body must be to be culled: two radii. */
  const Margin: real := 32.0

  /** The palette a body's colour is drawn from. */
  const BallColors: seq<string> := [
    "#e74c3c", "#e55b8c", "#f39c12", "#f1c40f",
    "#2ecc71", "#1abc9c", "#3498db", "#5b6be7",
    "#9b59b6", "#e67e22", "#1dd1a1", "#ff6b6b",
    "#48dbfb", "#feca57", "#ff9ff3", "#54a0ff"
  ]

  /** The two uniform draws in [0, 1) that a spawn uses: one for the vertical
      jitter of its start point, one for its colour. */
  datatype Roll = Roll(jitter: real, shade: real)

  predicate ValidRoll(roll: Roll) {
    0.0 <= roll.jitter < 1.0 && 0.0 <= roll.shade < 1.0
  }

  predicate ValidRolls(rolls: seq<Roll>) {
    forall i :: 0 <= i < |rolls| ==> ValidRoll(rolls[i])
  }

  /** A simulated disc: its engine identity, the character it shows, its
      current position and its palette index. */
  datatype Body = Body(id: nat, glyph: char, x: real, y: real, color: nat)

  /** A position the physics step may move a body to. */
  datatype Point = Point(x: real, y: real)

  /** The palette index picked by flooring a uniform draw times the palette
      size: always a valid index into BallColors. */
  function ColorIndex(shade: real): (i: nat)
    requires 0.0 <= shade < 1.0
    ensures i < |BallColors|
    ensures i as real <= shade * 16.0 < i as real + 1.0
  {
    (shade * 16.0).Floor
  }

  /** The body fireDigit creates for `ch`: it starts one radius outside the
      edge of its side, at 40% of the height give or take 30 pixels. */
  function SpawnBody(ch: char, side: Side, roll: Roll, id: nat, width: real, height: real): (b: Body)
    requires ValidRoll(roll)
    ensures b.id == id && b.glyph == ch && b.color < |BallColors|
    ensures height * 0.4 - 30.0 <= b.y < height * 0.4 + 30.0
  {
    Body(id, ch, if side == Left then -Radius else width + Radius,
         height * 0.4 + (roll.jitter - 0.5) * 60.0, ColorIndex(roll.shade))
  }

  /** The bodies spawned, in order, for the characters `chars` of one side,
      the i-th with the i-th roll and identity `id + i`. */
  function Spawned(chars: seq<char>, side: Side, rolls: seq<Roll>, id: nat, width: real, height: real): (r: seq<Body>)
    requires |rolls| >= |chars| && ValidRolls(rolls)
    ensures |r| == |chars|
    decreases |chars|
  {
    if chars == [] then []
    else
      var n := |chars| - 1;
      Spawned(chars[..n], side, rolls, id, width, height) + [SpawnBody(chars[n], side, rolls[n], id + n, width, height)]
  }

  lemma {:induction false} SpawnedAt(chars: seq<char>, side: Side, rolls: seq<Roll>, id: nat, width: real, height: real, i: nat)
    requires |rolls| >= |chars| && ValidRolls(rolls) && i < |chars|
    ensures Spawned(chars, side, rolls, id, width, height)[i] == SpawnBody(chars[i], side, rolls[i], id + i, width, height)
    decreases |chars|
  {
    var n := |chars| - 1;
    if i < n {
      SpawnedAt(chars[..n], side, rolls, id, width, height, i);
    }
  }

  // ---------------------------------------------------------------------
  // Identities: the engine world holds exactly the identities of the list.

  function Ids(s: seq<Body>): set<nat> {
    set b | b in s :: b.id
  }

  predicate Distinct(s: seq<Body>) {
    forall i, j :: 0 <= i < j < |s| ==> s[i].id != s[j].id
  }

  predicate IdsBelow(s: seq<Body>, bound: nat) {
    forall i :: 0 <= i < |s| ==> s[i].id < bound
  }

  lemma IdsAppend(a: seq<Body>, b: seq<Body>)
    ensures Ids(a + b) == Ids(a) + Ids(b)
  {
    forall x | x in Ids(a + b) ensures x in Ids(a) + Ids(b) {
      var c :| c in a + b && c.id == x;
      assert c in a || c in b;
    }
  }

  /** Dropping the first k bodies of a list with distinct identities removes
      exactly their identities and keeps the rest distinct. */
  lemma IdsSuffix(s: seq<Body>, k: nat)
    requires Distinct(s) && k <= |s|
    ensures Distinct(s[k..])
    ensures Ids(s[k..]) == Ids(s) - Ids(s[..k])
  {
    assert s == s[..k] + s[k..];
    IdsAppend(s[..k], s[k..]);
    forall x | x in Ids(s[k..]) ensures x !in Ids(s[..k]) {
      var c :| c in s[k..] && c.id == x;
      var j :| k <= j < |s| && s[j] == c;
      forall d | d in s[..k] ensures d.id != x {
        var i :| 0 <= i < k && s[i] == d;
      }
    }
  }

  // ---------------------------------------------------------------------
  // Capacity eviction (fireDigit).

  /** How many of the oldest bodies fireDigit drops from a list of n bodies:
      the fewest that leave room for one more under the cap. */
  function EvictCount(n: nat): (k: nat)
    ensures k <= n
    ensures n - k < MaxBodies
    ensures n < MaxBodies ==> k == 0
    ensures k > 0 ==> n - k == MaxBodies - 1
  {
    if n >= MaxBodies then n - MaxBodies + 1 else 0
  }

  /** The list after fireDigit adds `b`: the oldest bodies are dropped until
      there is room, then `b` is appended. */
  function Fired(s: seq<Body>, b: Body): (r: seq<Body>)
    ensures 1 <= |r| <= MaxBodies && |r| <= |s| + 1
  {
    s[EvictCount(|s|)..] + [b]
  }

  /** fireDigit appends the new body, keeps the newest old bodies in order,
      drops only the oldest, and drops none while the list is under the cap. */
  lemma FiredEvictsOldest(s: seq<Body>, b: Body)
    ensures var r := Fired(s, b);
      r[|r| - 1] == b && r[..|r| - 1] == s[|s| - (|r| - 1)..] &&
      (|s| < MaxBodies ==> r == s + [b])
  {
  }

  /** The list after fireDigit has added each of `news` in turn. */
  function PushAll(s: seq<Body>, news: seq<Body>): seq<Body>
    decreases |news|
  {
    if news == [] then s else Fired(PushAll(s, news[..|news| - 1]), news[|news| - 1])
  }

  /** Firing bodies one at a time never grows the list by more than their
      number, and once anything has been fired the list is within the cap. */
  lemma {:induction false} PushAllBound(s: seq<Body>, news: seq<Body>)
    ensures |PushAll(s, news)| <= |s| + |news|
    ensures news != [] ==> 1 <= |PushAll(s, news)| <= MaxBodies
    decreases |news|
  {
    if news != [] {
      PushAllBound(s, news[..|news| - 1]);
    }
  }

  /** The newest MaxBodies entries of a sequence (all of it when shorter). */
  function Window(t: seq<Body>): (r: seq<Body>)
    ensures |r| <= MaxBodies
  {
    t[|t| - Min(|t|, MaxBodies)..]
  }

  function Min(a: nat, b: nat): nat {
    if a <= b then a else b
  }

  lemma FiredWindow(t: seq<Body>, b: Body)
    ensures Fired(Window(t), b) == Window(t + [b])
  {
    var w := Window(t);
    if |t| >= MaxBodies {
      assert EvictCount(|w|) == 1;
      assert w[1..] + [b] == (t + [b])[|t| + 1 - MaxBodies..];
    } else {
      assert w == t;
    }
  }

  lemma PushAllConcat(s: seq<Body>, a: seq<Body>, b: seq<Body>)
    ensures PushAll(PushAll(s, a), b) == PushAll(s, a + b)
    decreases |b|
  {
    if b == [] {
      assert a + b == a;
    } else {
      var init, last := b[..|b| - 1], b[|b| - 1];
      PushAllConcat(s, a, init);
      assert (a + b)[..|a + b| - 1] == a + init;
      assert (a + b)[|a + b| - 1] == last;
      calc {
        PushAll(s, a + b);
        Fired(PushAll(s, a + init), last);
        Fired(PushAll(PushAll(s, a), init), last);
        PushAll(PushAll(s, a), b);
      }
    }
  }

  /** Starting within the cap, spawning any number of bodies one at a time
      leaves exactly the newest MaxBodies of old-then-new, in order: eviction
      is first-in first-out and never reorders. */
  lemma {:induction false} PushAllWindow(s: seq<Body>, news: seq<Body>)
    requires |s| <= MaxBodies
    ensures PushAll(s, news) == Window(s + news)
    decreases |news|
  {
    if news == [] {
      assert s + news == s;
    } else {
      var init := news[..|news| - 1];
      PushAllWindow(s, init);
      FiredWindow(s + init, news[|news| - 1]);
      assert s + init + [news[|news| - 1]] == s + news;
    }
  }

  // ---------------------------------------------------------------------
  // Boundary culling (cull).

  /** Below the bottom edge, or past the right or the left edge, by more
      than two radii. The top edge is not checked. */
  predicate OffScreen(b: Body, width: real, height: real) {
    b.y > height + Margin || b.x > width + Margin || b.x < -Margin
  }

  /** The bodies cull keeps, in their original order. */
  function Culled(s: seq<Body>, width: real, height: real): (r: seq<Body>)
    ensures |r| <= |s|
  {
    if s == [] then []
    else (if OffScreen(s[0], width, height) then [] else [s[0]]) + Culled(s[1..], width, height)
  }

  /** The bodies cull removes, in their original order. */
  function Removed(s: seq<Body>, width: real, height: real): (r: seq<Body>)
    ensures |r| <= |s|
  {
    if s == [] then []
    else (if OffScreen(s[0], width, height) then [s[0]] else []) + Removed(s[1..], width, height)
  }

  /** A body survives cull exactly when it is in the list and not off screen,
      and every body of the list is either kept or removed. */
  lemma {:induction false} CulledMembers(s: seq<Body>, width: real, height: real, b: Body)
    ensures b in Culled(s, width, height) <==> b in s && !OffScreen(b, width, height)
    ensures b in Removed(s, width, height) <==> b in s && OffScreen(b, width, height)
    ensures |Culled(s, width, height)| + |Removed(s, width, height)| == |s|
  {
    if s != [] {
      CulledMembers(s[1..], width, height, b);
      assert b in s <==> b == s[0] || b in s[1..];
    }
  }

  /** fireDigit only ever adds the bodies it is given: every body on the
      list after a run of spawns was on it before or is one of the new ones. */
  lemma {:induction false} PushAllMembers(s: seq<Body>, news: seq<Body>, b: Body)
    ensures b in PushAll(s, news) ==> b in s || b in news
    decreases |news|
  {
    if news != [] {
      var init, last := news[..|news| - 1], news[|news| - 1];
      var before := PushAll(s, init);
      var kept := before[EvictCount(|before|)..];
      assert PushAll(s, news) == kept + [last];
      if b in kept {
        var j :| 0 <= j < |kept| && kept[j] == b;
        assert before[EvictCount(|before|) + j] == b;
        PushAllMembers(s, init, b);
        assert news == init + [last];
      } else if b == last {
        assert news[|news| - 1] == b;
      }
    }
  }

  /** Cull works piecewise: culling a concatenation culls each part and keeps
      the parts in order. */
  lemma {:induction false} CulledAppend(a: seq<Body>, b: seq<Body>, width: real, height: real)
    ensures Culled(a + b, width, height) == Culled(a, width, height) + Culled(b, width, height)
  {
    if a == [] {
      assert a + b == b;
    } else {
      assert (a + b)[1..] == a[1..] + b;
      CulledAppend(a[1..], b, width, height);
    }
  }

  /** Cull leaves a list of on-screen bodies as it is. */
  lemma {:induction false} CulledOnScreen(s: seq<Body>, width: real, height: real)
    requires forall i :: 0 <= i < |s| ==> !OffScreen(s[i], width, height)
    ensures Culled(s, width, height) == s
  {
    if s != [] {
      CulledOnScreen(s[1..], width, height);
    }
  }

  /** A second cull with unchanged positions removes nothing. */
  lemma {:induction false} CulledIdempotent(s: seq<Body>, width: real, height: real)
    ensures Culled(Culled(s, width, height), width, height) == Culled(s, width, height)
  {
    var r := Culled(s, width, height);
    forall i | 0 <= i < |r| ensures !OffScreen(r[i], width, height) {
      assert r[i] in r;
      CulledMembers(s, width, height, r[i]);
    }
    CulledOnScreen(r, width, height);
  }

  /** Culling a list with distinct identities keeps them distinct, and the
      identities left are those of the list minus those of the removed bodies. */
  lemma {:induction false} IdsCulled(s: seq<Body>, width: real, height: real)
    requires Distinct(s)
    ensures Distinct(Culled(s, width, height))
    ensures Ids(Culled(s, width, height)) == Ids(s) - Ids(Removed(s, width, height))
  {
    if s != [] {
      var rest := s[1..];
      IdsSuffix(s, 1);
      IdsCulled(rest, width, height);
      var c, r := Culled(rest, width, height), Removed(rest, width, height);
      assert s == [s[0]] + rest;
      IdsAppend([s[0]], rest);
      forall d | d in rest ensures d.id != s[0].id {
        var j :| 0 <= j < |rest| && rest[j] == d;
        assert s[j + 1] == d;
      }
      forall b | b in c || b in r ensures b in rest {
        CulledMembers(rest, width, height, b);
      }
      if OffScreen(s[0], width, height) {
        assert Culled(s, width, height) == c;
        assert Removed(s, width, height) == [s[0]] + r;
        IdsAppend([s[0]], r);
      } else {
        IdsAppend([s[0]], c);
        forall i, j | 0 <= i < j < |[s[0]] + c| ensures ([s[0]] + c)[i].id != ([s[0]] + c)[j].id {
          if i == 0 { assert ([s[0]] + c)[j] in c; }
        }
      }
    }
  }

  /** One frame's bookkeeping: when the list starts within the cap and every
      newly spawned body is on screen, spawning them and then culling leaves
      the new bodies as the newest entries, in spawn order. */
  lemma CullAfterPushKeepsNews(s: seq<Body>, news: seq<Body>, width: real, height: real)
    requires |s| <= MaxBodies && |news| <= MaxBodies
    requires forall i :: 0 <= i < |news| ==> !OffScreen(news[i], width, height)
    ensures |news| <= |Culled(PushAll(s, news), width, height)|
    ensures Culled(PushAll(s, news), width, height)[|Culled(PushAll(s, news), width, height)| - |news|..] == news
  {
    PushAllWindow(s, news);
    var t := s + news;
    var d := |t| - Min(|t|, MaxBodies);
    assert d <= |s|;
    assert Window(t) == s[d..] + news;
    CulledAppend(s[d..], news, width, height);
    CulledOnScreen(news, width, height);
  }

  /** Cull's verdict on index i: the body there is removed or kept, and the
      rest of the suffix is culled as before. */
  lemma CullStepAt(s: seq<Body>, i: nat, width: real, height: real)
    requires i < |s|
    ensures OffScreen(s[i], width, height) ==>
      Culled(s[i..], width, height) == Culled(s[i + 1..], width, height) &&
      Removed(s[i..], width, height) == [s[i]] + Removed(s[i + 1..], width, height)
    ensures !OffScreen(s[i], width, height) ==>
      Culled(s[i..], width, height) == [s[i]] + Culled(s[i + 1..], width, height) &&
      Removed(s[i..], width, height) == Removed(s[i + 1..], width, height)
  {
    assert s[i..][1..] == s[i + 1..];
  }

  /** Removing the element between a prefix and a suffix leaves the two. */
  lemma SpliceOut(p: seq<Body>, x: Body, c: seq<Body>)
    ensures (p + [x] + c)[|p|] == x
    ensures (p + [x] + c)[..|p|] + (p + [x] + c)[|p| + 1..] == p + c
  {
    var t := p + [x] + c;
    assert t[..|p|] == p;
    assert t[|p| + 1..] == c;
  }

  lemma CulledIdsBelow(s: seq<Body>, width: real, height: real, bound: nat)
    requires IdsBelow(s, bound)
    ensures IdsBelow(Culled(s, width, height), bound)
  {
    var r := Culled(s, width, height);
    forall i | 0 <= i < |r| ensures r[i].id < bound {
      assert r[i] in r;
      CulledMembers(s, width, height, r[i]);
      var j :| 0 <= j < |s| && s[j] == r[i];
    }
  }

  /** Fired keeps identities distinct when the new one is fresh, and the
      identities it leaves are the old ones, minus the evicted, plus the new. */
  lemma FiredIds(s: seq<Body>, b: Body, bound: nat)
    requires Distinct(s) && IdsBelow(s, bound) && b.id == bound
    ensures var r := Fired(s, b);
      Distinct(r) && IdsBelow(r, bound + 1) &&
      Ids(r) == Ids(s) - Ids(s[..EvictCount(|s|)]) + {bound}
  {
    var k := EvictCount(|s|);
    IdsSuffix(s, k);
    IdsAppend(s[k..], [b]);
    assert Ids([b]) == {bound};
  }

  /** Dropping the body at index e from the suffix that starts there. */
  lemma IdsDropFirst(s: seq<Body>, e: nat)
    requires Distinct(s) && e < |s|
    ensures Ids(s[e + 1..]) == Ids(s[e..]) - {s[e].id}
  {
    IdsSuffix(s, e);
    IdsSuffix(s, e + 1);
    assert s[..e + 1] == s[..e] + [s[e]];
    IdsAppend(s[..e], [s[e]]);
    assert Ids([s[e]]) == {s[e].id};
  }

  /** Spawning one more character of a side extends the spawned bodies by
      one, and the list by one fired body. */
  lemma PushSpawnedSnoc(s: seq<Body>, chars: seq<char>, i: nat, side: Side, rolls: seq<Roll>, id: nat,
                        width: real, height: real)
    requires i < |chars| && |rolls| >= |chars| && ValidRolls(rolls)
    ensures PushAll(s, Spawned(chars[..i + 1], side, rolls, id, width, height))
         == Fired(PushAll(s, Spawned(chars[..i], side, rolls, id, width, height)),
                  SpawnBody(chars[i], side, rolls[i], id + i, width, height))
  {
    var longer := chars[..i + 1];
    assert longer[..|longer| - 1] == chars[..i];
    var after := Spawned(longer, side, rolls, id, width, height);
    assert after == Spawned(chars[..i], side, rolls, id, width, height)
                  + [SpawnBody(chars[i], side, rolls[i], id + i, width, height)];
    assert after[..|after| - 1] == Spawned(chars[..i], side, rolls, id, width, height);
  }

  /** Every body a frame spawns starts on screen. */
  lemma SpawnedOnScreen(chars: seq<char>, side: Side, rolls: seq<Roll>, id: nat, width: real, height: real)
    requires |rolls| >= |chars| && ValidRolls(rolls) && width >= 0.0 && height >= 0.0
    ensures forall i :: 0 <= i < |chars| ==> !OffScreen(Spawned(chars, side, rolls, id, width, height)[i], width, height)
  {
    forall i | 0 <= i < |chars| ensures !OffScreen(Spawned(chars, side, rolls, id, width, height)[i], width, height) {
      SpawnedAt(chars, side, rolls, id, width, height, i);
      SpawnOnScreen(chars[i], side, rolls[i], id + i, width, height);
    }
  }

  /** A freshly spawned body is never culled in the frame it appears in. */
  lemma SpawnOnScreen(ch: char, side: Side, roll: Roll, id: nat, width: real, height: real)
    requires ValidRoll(roll) && width >= 0.0 && height >= 0.0
    ensures !OffScreen(SpawnBody(ch, side, roll, id, width, height), width, height)
  {
  }
}
