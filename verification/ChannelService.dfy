/** The proximity rules: the nearest channels, and joining one of them or opening a new one. */
module ChannelService {
  import opened Membership
  import opened MemoryStore
  import opened Wrappers

  /** The distance in kilometres between two positions; nothing about it is assumed. */
  type Metric = (real, real, real, real) -> real

  const MAX_USERS_PER_CHANNEL := 10
  const MAX_VISIBLE_CHANNELS := 15
  const JOIN_RADIUS_KM := 10.0

  /** Where the user is. */
  datatype Position = Position(latitude: real, longitude: real, metric: Metric)

  function Distance(p: Position, ch: Channel): real {
    p.metric(p.latitude, p.longitude, ch.latitude, ch.longitude)
  }

  function Distances(p: Position, s: seq<Channel>): seq<real> {
    seq(|s|, i requires 0 <= i < |s| => Distance(p, s[i]))
  }

  ghost predicate Ascending(p: Position, s: seq<Channel>) {
    forall i, j :: 0 <= i < j < |s| ==> Distance(p, s[i]) <= Distance(p, s[j])
  }

  // ---- The in-place exchange sort ----

  method SortChannelsByDistance(channels: array<Channel>, p: Position)
    modifies channels
    ensures Ascending(p, channels[..])
    ensures multiset(channels[..]) == multiset(old(channels[..]))
  {
    var i := 0;
    while i < channels.Length - 1
      invariant 0 <= i <= channels.Length
      invariant SettledUpTo(p, channels[..], i)
      invariant multiset(channels[..]) == multiset(old(channels[..]))
    {
      var j := i + 1;
      while j < channels.Length
        invariant i < j <= channels.Length
        invariant SettledUpTo(p, channels[..], i)
        invariant LeastBetween(p, channels[..], i, j)
        invariant multiset(channels[..]) == multiset(old(channels[..]))
      {
        if Distance(p, channels[j]) < Distance(p, channels[i]) {
          SwapKeeps(p, channels[..], i, j);
          channels[i], channels[j] := channels[j], channels[i];
        }
        j := j + 1;
      }
      i := i + 1;
    }
  }

  /** The first n are ascending, and no later one is nearer than any of them. */
  ghost predicate SettledUpTo(p: Position, s: seq<Channel>, n: int) {
    forall k, l :: 0 <= k < n && k < l < |s| ==> Distance(p, s[k]) <= Distance(p, s[l])
  }

  ghost predicate LeastBetween(p: Position, s: seq<Channel>, i: int, j: int) {
    0 <= i < j <= |s| && forall k :: i < k < j ==> Distance(p, s[i]) <= Distance(p, s[k])
  }

  function Swapped(s: seq<Channel>, i: nat, j: nat): seq<Channel>
    requires i < j < |s|
  {
    s[i := s[j]][j := s[i]]
  }

  lemma SwapKeeps(p: Position, s: seq<Channel>, i: nat, j: nat)
    requires i < j < |s| && SettledUpTo(p, s, i) && LeastBetween(p, s, i, j)
    requires Distance(p, s[j]) < Distance(p, s[i])
    ensures multiset(Swapped(s, i, j)) == multiset(s)
    ensures SettledUpTo(p, Swapped(s, i, j), i) && LeastBetween(p, Swapped(s, i, j), i, j + 1)
  {
  }

  // ---- The nearest channels ----

  /** The candidates in range, each with its distance filled in. */
  function InRadius(p: Position, radiusKm: real, candidates: seq<Channel>): seq<Channel> {
    if candidates == [] then []
    else
      var last := candidates[|candidates| - 1];
      InRadius(p, radiusKm, candidates[..|candidates| - 1]) +
      if Distance(p, last) <= radiusKm then [last.(distance := Distance(p, last))] else []
  }

  lemma {:induction false} InRadiusExactly(p: Position, radiusKm: real, candidates: seq<Channel>, x: Channel)
    ensures x in InRadius(p, radiusKm, candidates)
            <==> exists i :: 0 <= i < |candidates| && Distance(p, candidates[i]) <= radiusKm
                             && x == candidates[i].(distance := Distance(p, candidates[i]))
  {
    if candidates != [] {
      InRadiusExactly(p, radiusKm, candidates[..|candidates| - 1], x);
    }
  }

  /** The first of the pool in some order of distance. */
  ghost predicate Nearest(p: Position, pool: seq<Channel>, result: seq<Channel>) {
    exists all: seq<Channel> :: Ranks(p, pool, all) && result == Visible(all)
  }

  ghost predicate Ranks(p: Position, pool: seq<Channel>, all: seq<Channel>) {
    Ascending(p, all) && multiset(all) == multiset(pool)
  }

  function Visible(all: seq<Channel>): seq<Channel> {
    if |all| > MAX_VISIBLE_CHANNELS then all[..MAX_VISIBLE_CHANNELS] else all
  }

  /** What a user sees: at most fifteen, in order of distance, all from the pool; whatever is left
      out is at least as far as anything shown, and nothing is left out while fifteen suffice. */
  lemma NearestMeans(p: Position, pool: seq<Channel>, result: seq<Channel>)
    requires Nearest(p, pool, result)
    ensures |result| == if |pool| > MAX_VISIBLE_CHANNELS then MAX_VISIBLE_CHANNELS else |pool|
    ensures Ascending(p, result)
    ensures multiset(result) <= multiset(pool)
    ensures forall shown, omitted :: shown in result && omitted in multiset(pool) - multiset(result) ==>
              Distance(p, shown) <= Distance(p, omitted)
    ensures |pool| <= MAX_VISIBLE_CHANNELS ==> multiset(result) == multiset(pool)
  {
    var all :| Ranks(p, pool, all) && result == Visible(all);
    assert |all| == |multiset(all)| == |multiset(pool)| == |pool|;
    var rest := all[|result|..];
    assert all == result + rest;
    forall omitted | omitted in multiset(pool) - multiset(result) ensures omitted in rest {
      assert multiset(all)[omitted] == multiset(result)[omitted] + multiset(rest)[omitted];
    }
  }

  lemma LeftOut(p: Position, pool: seq<Channel>, result: seq<Channel>, omitted: Channel)
    requires Nearest(p, pool, result) && omitted in pool && omitted !in result
    ensures |result| == MAX_VISIBLE_CHANNELS
    ensures forall k :: 0 <= k < |result| ==> Distance(p, result[k]) <= Distance(p, omitted)
  {
    NearestMeans(p, pool, result);
    assert multiset(result)[omitted] == 0 && multiset(pool)[omitted] > 0;
    assert omitted in multiset(pool) - multiset(result);
  }

  /** Ties aside, the answer does not depend on the order in which the store lists the channels. */
  lemma NearestDistancesUnique(p: Position, pool: seq<Channel>, result: seq<Channel>,
                               pool': seq<Channel>, result': seq<Channel>)
    requires Nearest(p, pool, result) && Nearest(p, pool', result') && multiset(pool) == multiset(pool')
    ensures Distances(p, result) == Distances(p, result')
  {
    var all :| Ranks(p, pool, all) && result == Visible(all);
    var all' :| Ranks(p, pool', all') && result' == Visible(all');
    PermutedDistances(p, all, all');
    assert Increasing(Distances(p, all)) && Increasing(Distances(p, all'));
    SortedUnique(Distances(p, all), Distances(p, all'));
    assert |all| == |Distances(p, all)| == |all'|;
    forall i | 0 <= i < |result| ensures Distance(p, result[i]) == Distance(p, result'[i]) {
      assert Distances(p, all)[i] == Distances(p, all')[i];
    }
  }

  lemma TakeOut<T>(s: seq<T>, j: nat, x: T)
    requires j < |s| && s[j] == x
    ensures multiset(s[..j] + s[j + 1..]) == multiset(s) - multiset{x}
  {
    assert s == s[..j] + [x] + s[j + 1..];
  }

  lemma SameRest<T>(s: seq<T>, t: seq<T>, j: nat)
    requires multiset(s) == multiset(t) && s != [] && j < |t| && t[j] == s[0]
    ensures multiset(s[1..]) == multiset(t[..j] + t[j + 1..])
  {
    TakeOut(t, j, s[0]);
    TakeFirst(s);
  }

  lemma TakeFirst<T>(s: seq<T>)
    requires s != []
    ensures multiset(s[1..]) == multiset(s) - multiset{s[0]}
  {
    assert s == [s[0]] + s[1..];
  }

  lemma {:induction false} PermutedDistances(p: Position, s: seq<Channel>, t: seq<Channel>)
    requires multiset(s) == multiset(t)
    ensures multiset(Distances(p, s)) == multiset(Distances(p, t))
  {
    if s == [] {
      assert |multiset(t)| == 0;
    } else {
      assert s[0] in multiset(t);
      var j :| 0 <= j < |t| && t[j] == s[0];
      SameRest(s, t, j);
      DistancesWithout(p, t, j);
      DistancesWithoutFirst(p, s);
      var rest := t[..j] + t[j + 1..];
      PermutedDistances(p, s[1..], rest);
    }
  }

  lemma DistancesWithoutFirst(p: Position, s: seq<Channel>)
    requires s != []
    ensures multiset(Distances(p, s)) == multiset(Distances(p, s[1..])) + multiset{Distance(p, s[0])}
  {
    DistancesWithout(p, s, 0);
    assert s[..0] + s[1..] == s[1..];
  }

  lemma DistancesWithout(p: Position, s: seq<Channel>, j: nat)
    requires j < |s|
    ensures multiset(Distances(p, s)) == multiset(Distances(p, s[..j] + s[j + 1..])) + multiset{Distance(p, s[j])}
  {
    var d, x := Distances(p, s), Distance(p, s[j]);
    TakeOut(d, j, x);
    assert d[..j] + d[j + 1..] == Distances(p, s[..j] + s[j + 1..]);
    assert x in multiset(d);
    assert multiset(d) == (multiset(d) - multiset{x}) + multiset{x};
  }

  ghost predicate Increasing(s: seq<real>) {
    forall i, j :: 0 <= i < j < |s| ==> s[i] <= s[j]
  }

  lemma SameFirst(s: seq<real>, t: seq<real>)
    requires multiset(s) == multiset(t) && Increasing(s) && Increasing(t) && s != [] && t != []
    ensures s[0] == t[0]
  {
    assert s[0] in multiset(t);
    assert t[0] in multiset(s);
  }

  lemma {:induction false} SortedUnique(s: seq<real>, t: seq<real>)
    requires multiset(s) == multiset(t) && Increasing(s) && Increasing(t)
    ensures s == t
  {
    assert |s| == |multiset(s)| == |multiset(t)| == |t|;
    if s != [] {
      SameFirst(s, t);
      TakeFirst(s);
      TakeFirst(t);
      var s', t' := s[1..], t[1..];
      SortedUnique(s', t');
      assert s == [s[0]] + s' && t == [t[0]] + t';
    }
  }

  // ---- The answer in terms of the store ----

  function Shown(p: Position, ch: Channel): Channel {
    ch.(distance := Distance(p, ch))
  }

  ghost predicate InStore(p: Position, channels: map<ChannelId, Channel>, users: map<ChannelId, seq<UserId>>,
                          ch: Channel) {
    && ch.id in channels && ch.id in users && ch == Shown(p, Counted(channels[ch.id], users[ch.id]))
    && ch.userCount == |users[ch.id]| && (ch.isAvailable <==> |users[ch.id]| < ch.maxUsers)
    && ch.distance == p.metric(p.latitude, p.longitude, ch.latitude, ch.longitude)
  }

  ghost predicate DifferentIds(s: seq<Channel>) {
    forall j, k :: 0 <= j < k < |s| ==> s[j].id != s[k].id
  }

  /** Every channel shown is a different channel of the store within the radius, with its current
      count; a channel within the radius is missing only if fifteen at least as near are shown. */
  ghost predicate NearestChannels(p: Position, radiusKm: real, channels: map<ChannelId, Channel>,
                                  users: map<ChannelId, seq<UserId>>, result: seq<Channel>) {
    && |result| <= MAX_VISIBLE_CHANNELS && Ascending(p, result) && DifferentIds(result)
    && (forall k :: 0 <= k < |result| ==> InStore(p, channels, users, result[k]) && result[k].distance <= radiusKm)
    && (forall c :: c in channels && Distance(p, channels[c]) <= radiusKm && !HasId(result, c) ==>
          && |result| == MAX_VISIBLE_CHANNELS
          && forall k :: 0 <= k < |result| ==> result[k].distance <= Distance(p, channels[c]))
  }

  ghost predicate HasId(s: seq<Channel>, id: ChannelId) {
    exists k :: 0 <= k < |s| && s[k].id == id
  }

  lemma {:induction false} InRadiusDifferent(p: Position, radiusKm: real, candidates: seq<Channel>)
    requires DifferentIds(candidates)
    ensures DifferentIds(InRadius(p, radiusKm, candidates))
  {
    if candidates != [] {
      var n := |candidates| - 1;
      InRadiusDifferent(p, radiusKm, candidates[..n]);
      var before := InRadius(p, radiusKm, candidates[..n]);
      forall k | 0 <= k < |before| ensures before[k].id != candidates[n].id {
        InRadiusExactly(p, radiusKm, candidates[..n], before[k]);
      }
    }
  }

  lemma TwoPlaces<T>(s: seq<T>, x: T)
    requires multiset(s)[x] >= 2
    ensures exists j, k :: 0 <= j < k < |s| && s[j] == s[k] == x
  {
    assert x in multiset(s);
    var i :| 0 <= i < |s| && s[i] == x;
    TakeOut(s, i, x);
    var rest := s[..i] + s[i + 1..];
    assert x in multiset(rest);
    var l :| 0 <= l < |rest| && rest[l] == x;
    assert s[if l < i then l else l + 1] == x;
  }

  /** Choosing from a sequence without duplicates, no more often than it occurs. */
  lemma ChosenDifferent(pool: seq<Channel>, result: seq<Channel>, j: nat, k: nat)
    requires DifferentIds(pool) && multiset(result) <= multiset(pool) && j < k < |result|
    ensures result[j] != result[k]
  {
    var x := result[j];
    if x == result[k] {
      TakeOut(result, k, x);
      assert (result[..k] + result[k + 1..])[j] == x;
      TwoPlaces(pool, x);
    }
  }

  lemma NearestInStore(p: Position, radiusKm: real, channels: map<ChannelId, Channel>,
                       users: map<ChannelId, seq<UserId>>, listed: seq<Channel>, result: seq<Channel>)
    requires Lists(channels, users, listed) && (forall c :: c in channels ==> channels[c].id == c)
    requires Nearest(p, InRadius(p, radiusKm, listed), result)
    ensures NearestChannels(p, radiusKm, channels, users, result)
  {
    var pool := InRadius(p, radiusKm, listed);
    NearestMeans(p, pool, result);
    forall k | 0 <= k < |result|
      ensures InStore(p, channels, users, result[k]) && result[k].distance <= radiusKm
    {
      assert result[k] in multiset(result);
      InRadiusExactly(p, radiusKm, listed, result[k]);
    }
    InRadiusDifferent(p, radiusKm, listed);
    forall j, k | 0 <= j < k < |result| ensures result[j].id != result[k].id {
      ChosenDifferent(pool, result, j, k);
    }
    forall c | c in channels && Distance(p, channels[c]) <= radiusKm && !HasId(result, c)
      ensures |result| == MAX_VISIBLE_CHANNELS
      ensures forall k :: 0 <= k < |result| ==> result[k].distance <= Distance(p, channels[c])
    {
      OmittedIsFar(p, radiusKm, channels, users, listed, result, c);
    }
  }

  lemma OmittedIsFar(p: Position, radiusKm: real, channels: map<ChannelId, Channel>, users: map<ChannelId, seq<UserId>>,
                     listed: seq<Channel>, result: seq<Channel>, c: ChannelId)
    requires Lists(channels, users, listed) && c in channels && channels[c].id == c
    requires Nearest(p, InRadius(p, radiusKm, listed), result)
    requires Distance(p, channels[c]) <= radiusKm && !HasId(result, c)
    ensures |result| == MAX_VISIBLE_CHANNELS
    ensures forall k :: 0 <= k < |result| ==> Distance(p, result[k]) <= Distance(p, channels[c])
  {
    var pool, x := InRadius(p, radiusKm, listed), Shown(p, Counted(channels[c], users[c]));
    assert Counted(channels[c], users[c]) in listed;
    InRadiusExactly(p, radiusKm, listed, x);
    assert x !in result;
    LeftOut(p, pool, result, x);
  }

  // ---- The service over the store ----

  /** A channel that JoinChannelOrCreate may put the user in. */
  ghost predicate Joinable(p: Position, channels: map<ChannelId, Channel>, users: map<ChannelId, seq<UserId>>,
                           user: UserId, c: ChannelId) {
    && c in channels && c in users && Distance(p, channels[c]) <= JOIN_RADIUS_KM
    && |users[c]| < channels[c].maxUsers && user !in users[c]
  }

  lemma AllTried(p: Position, channels: map<ChannelId, Channel>, users: map<ChannelId, seq<UserId>>,
                 user: UserId, listed: seq<Channel>)
    requires Lists(channels, users, listed) && forall c :: c in channels ==> channels[c].id == c
    requires forall k :: 0 <= k < |listed| ==> !Joinable(p, channels, users, user, listed[k].id)
    ensures !exists c :: Joinable(p, channels, users, user, c)
  {
    forall c | c in channels ensures !Joinable(p, channels, users, user, c) {
      assert Counted(channels[c], users[c]) in listed;
    }
  }

  class ChannelService {
    const store: MemoryChannelStore

    constructor (store: MemoryChannelStore)
      ensures this.store == store
    {
      this.store := store;
    }

    method GetNearbyChannels(p: Position, radiusKm: real) returns (result: seq<Channel>)
      requires store.Valid()
      ensures NearestChannels(p, radiusKm, store.channels, store.channelUsers, result)
    {
      var candidates := store.ListNearby();
      var nearby := FilterNearby(p, radiusKm, candidates);
      result := FirstVisible(p, nearby);
      NearestInStore(p, radiusKm, store.channels, store.channelUsers, candidates, result);
    }

    /** The loop of GetNearbyChannels. */
    method FilterNearby(p: Position, radiusKm: real, candidates: seq<Channel>) returns (nearby: seq<Channel>)
      ensures nearby == InRadius(p, radiusKm, candidates)
    {
      nearby := [];
      for i := 0 to |candidates|
        invariant nearby == InRadius(p, radiusKm, candidates[..i])
      {
        assert candidates[..i + 1][..i] == candidates[..i];
        var distance := Distance(p, candidates[i]);
        if distance <= radiusKm {
          nearby := nearby + [candidates[i].(distance := distance)];
        }
      }
      assert candidates[..|candidates|] == candidates;
    }

    /** The end of GetNearbyChannels: sorts the slice and cuts it. */
    method FirstVisible(p: Position, nearby: seq<Channel>) returns (result: seq<Channel>)
      ensures Nearest(p, nearby, result)
    {
      var nearbyChannels := new Channel[|nearby|](i requires 0 <= i < |nearby| => nearby[i]);
      assert nearbyChannels[..] == nearby;
      SortChannelsByDistance(nearbyChannels, p);
      result := nearbyChannels[..];
      assert Ranks(p, nearby, result);
      if |result| > MAX_VISIBLE_CHANNELS {
        result := result[..MAX_VISIBLE_CHANNELS];
      }
    }

    /** Joins a channel within ten kilometres that has room and does not have the user yet; opens a
        new one when there is none. */
    method JoinChannelOrCreate(p: Position, user: UserId, name: string, newId: ChannelId, now: int) returns (r: Channel)
      requires store.Valid()
      modifies store
      ensures store.Valid()
      ensures r.id in store.channelUsers && user in store.channelUsers[r.id]
      ensures if exists c :: Joinable(p, old(store.channels), old(store.channelUsers), user, c)
              then Joinable(p, old(store.channels), old(store.channelUsers), user, r.id)
                   && store.Directory() == Added(old(store.Directory()), r.id, user)
              else r == Channel(newId, name, p.latitude, p.longitude, MAX_USERS_PER_CHANNEL, 1, true, 0.0, user, now)
                   && store.channels == old(store.channels)[newId := r]
                   && store.Directory() == Created(old(store.Directory()), newId, user, MAX_USERS_PER_CHANNEL)
    {
      var candidates := store.ListNearby();
      for i := 0 to |candidates|
        invariant store.Valid()
        invariant store.channels == old(store.channels) && store.channelUsers == old(store.channelUsers)
        invariant forall k :: 0 <= k < i ==> !Joinable(p, store.channels, store.channelUsers, user, candidates[k].id)
      {
        var joined := TryJoin(p, user, candidates[i], now);
        if joined.Some? {
          return joined.value;
        }
      }
      AllTried(p, store.channels, store.channelUsers, user, candidates);
      r := Channel(newId, name, p.latitude, p.longitude, MAX_USERS_PER_CHANNEL, 1, true, 0.0, user, now);
      store.Create(r);
    }

    /** One round of the loop of JoinChannelOrCreate. */
    method TryJoin(p: Position, user: UserId, ch: Channel, now: int) returns (r: Option<Channel>)
      requires store.Valid() && IsListed(store.channels, store.channelUsers, ch)
      modifies store
      ensures store.Valid()
      ensures r.Some? <==> Joinable(p, old(store.channels), old(store.channelUsers), user, ch.id)
      ensures r.None? ==> store.channels == old(store.channels) && store.channelUsers == old(store.channelUsers)
      ensures r.Some? ==> r.value.id == ch.id && store.Directory() == Added(old(store.Directory()), ch.id, user)
      ensures r.Some? ==> ch.id in store.channelUsers && user in store.channelUsers[ch.id]
    {
      if Distance(p, ch) > JOIN_RADIUS_KM || !ch.isAvailable {
        return None;
      }
      var isMember := store.IsMember(ch.id, user);
      if isMember != Some(false) {
        return None;
      }
      ghost var d := store.Directory();
      var err := store.AddMember(ch.id, user, now);
      assert err == Success;
      assert store.Directory()[ch.id].members == d[ch.id].members + [user];
      r := store.GetByID(ch.id);
    }
  }
}
