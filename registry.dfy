/** EIP-6963 provider discovery as WalletConnector keeps it: every announced
    provider detail is appended to one of two ordered lists, the sponsor list
    (details whose `rdns` is the Abstraction wallet's) or the general list.
    The duplicate check is the one src/connectors/WalletConnector.ts uses: a
    detail is skipped only when its uuid is already in BOTH lists. */
module Registry {

  import opened Rpc

  /** EIP6963ProviderInfo; `rdns` is optional. */
  datatype ProviderInfo = ProviderInfo(uuid: string, name: string, icon: string, rdns: Option<string>)

  /** EIP6963ProviderDetail; `provider` is None when the announcement carries
      no provider object. */
  datatype ProviderDetail = ProviderDetail(accounts: seq<Address>, info: ProviderInfo, provider: Option<Provider>)

  /** The two lists: `sponsors` is `sponsorProviders`, `general` is
      `providerDetails`. */
  datatype Lists = Lists(sponsors: seq<ProviderDetail>, general: seq<ProviderDetail>)

  const SponsorRdns: string := "world.abstraction.wallet"

  const Empty: Lists := Lists([], [])

  predicate IsSponsor(d: ProviderDetail) {
    d.info.rdns == Some(SponsorRdns)
  }

  function TotalLength(l: Lists): nat {
    |l.sponsors| + |l.general|
  }

  /** The `find` by uuid that both membership checks perform. */
  function HasUuid(s: seq<ProviderDetail>, uuid: string): (b: bool)
    ensures b <==> exists i :: 0 <= i < |s| && s[i].info.uuid == uuid
  {
    if s == [] then false
    else s[0].info.uuid == uuid || HasUuid(s[1..], uuid)
  }

  /** `existsProviderDetail`: the uuid occurs in both lists. */
  function ExistsProviderDetail(l: Lists, d: ProviderDetail): (b: bool)
    ensures b <==> ((exists i :: 0 <= i < |l.sponsors| && l.sponsors[i].info.uuid == d.info.uuid)
                    && (exists j :: 0 <= j < |l.general| && l.general[j].info.uuid == d.info.uuid))
  {
    HasUuid(l.sponsors, d.info.uuid) && HasUuid(l.general, d.info.uuid)
  }

  /** `existsSponsorDetail`: despite its name, a lookup in the general list. */
  function ExistsSponsorDetail(l: Lists, d: ProviderDetail): (b: bool)
    ensures b <==> exists j :: 0 <= j < |l.general| && l.general[j].info.uuid == d.info.uuid
  {
    HasUuid(l.general, d.info.uuid)
  }

  /** `handleNewProviderDetail`. */
  function HandleNew(l: Lists, d: ProviderDetail): (r: Lists)
    ensures ExistsProviderDetail(l, d) ==> r == l
    ensures !ExistsProviderDetail(l, d) ==> TotalLength(r) == TotalLength(l) + 1
    ensures l.sponsors <= r.sponsors && l.general <= r.general
  {
    if ExistsProviderDetail(l, d) then l
    else if IsSponsor(d) then Lists(l.sponsors + [d], l.general)
    else Lists(l.sponsors, l.general + [d])
  }

  /** The announce-event listener: a detail with an empty (falsy) uuid is
      ignored. */
  function Announce(l: Lists, d: ProviderDetail): (r: Lists)
    ensures d.info.uuid == "" ==> r == l
    ensures TotalLength(l) <= TotalLength(r) <= TotalLength(l) + 1
    ensures l.sponsors <= r.sponsors && l.general <= r.general
  {
    if d.info.uuid == "" then l else HandleNew(l, d)
  }

  /** A run of announcements, in arrival order. */
  function AnnounceAll(l: Lists, ds: seq<ProviderDetail>): Lists
    decreases |ds|
  {
    if ds == [] then l else AnnounceAll(Announce(l, ds[0]), ds[1..])
  }

  // ---------------------------------------------------------------------
  // Properties of one announcement
  // ---------------------------------------------------------------------

  /** A detail that is not skipped goes to the end of the list its `rdns`
      selects; the other list is left as it was. */
  lemma HandleNewRoutes(l: Lists, d: ProviderDetail)
    requires !ExistsProviderDetail(l, d)
    ensures IsSponsor(d) ==>
              (HandleNew(l, d).sponsors == l.sponsors + [d] && HandleNew(l, d).general == l.general)
    ensures !IsSponsor(d) ==>
              (HandleNew(l, d).general == l.general + [d] && HandleNew(l, d).sponsors == l.sponsors)
  {
  }

  /** The handler leaves the lists unchanged exactly when the uuid is already
      in both of them. */
  lemma HandleNewNoOpIff(l: Lists, d: ProviderDetail)
    ensures HandleNew(l, d) == l <==> ExistsProviderDetail(l, d)
  {
    if !ExistsProviderDetail(l, d) {
      assert TotalLength(HandleNew(l, d)) == TotalLength(l) + 1;
    }
  }

  /** Otherwise it adds exactly one entry and keeps every existing entry in
      place. */
  lemma HandleNewAppendsOne(l: Lists, d: ProviderDetail)
    requires !ExistsProviderDetail(l, d)
    ensures TotalLength(HandleNew(l, d)) == TotalLength(l) + 1
    ensures HandleNew(l, d).sponsors[..|l.sponsors|] == l.sponsors
    ensures HandleNew(l, d).general[..|l.general|] == l.general
  {
  }

  /** A uuid already present in only one list is not a duplicate: the same
      detail is appended a second time. */
  lemma ReannouncedInOneListAppends(l: Lists, d: ProviderDetail)
    requires HasUuid(l.sponsors, d.info.uuid) != HasUuid(l.general, d.info.uuid)
    ensures TotalLength(HandleNew(l, d)) == TotalLength(l) + 1
  {
  }

  /** An announcement with an empty uuid leaves both lists unchanged. */
  lemma AnnounceIgnoresEmptyUuid(l: Lists, d: ProviderDetail)
    requires d.info.uuid == ""
    ensures Announce(l, d) == l
  {
  }

  // ---------------------------------------------------------------------
  // Properties of a run of announcements
  // ---------------------------------------------------------------------

  /** Every uuid in the sponsor list is one `cls` calls sponsor and every uuid
      in the general list one it does not. */
  ghost predicate AgreesWith(l: Lists, cls: string -> bool) {
    && (forall i :: 0 <= i < |l.sponsors| ==> cls(l.sponsors[i].info.uuid))
    && (forall j :: 0 <= j < |l.general| ==> !cls(l.general[j].info.uuid))
  }

  /** Under such a classification no uuid is in both lists, so the duplicate
      check never fires. */
  lemma {:induction false} NeverBothWhenAgreeing(l: Lists, cls: string -> bool, d: ProviderDetail)
    requires AgreesWith(l, cls)
    ensures !ExistsProviderDetail(l, d)
  {
    forall i, j | 0 <= i < |l.sponsors| && 0 <= j < |l.general|
      ensures l.sponsors[i].info.uuid != l.general[j].info.uuid
    {
      assert cls(l.sponsors[i].info.uuid) && !cls(l.general[j].info.uuid);
    }
  }

  /** When every announcement of a uuid agrees on whether it is the sponsor
      wallet (in particular, when every wallet announces with a fixed rdns),
      the duplicate check never skips anything: each announcement with a
      non-empty uuid adds one entry, however often a uuid is repeated. */
  lemma {:induction false} RepeatedAnnouncementsAllAppend(l: Lists, ds: seq<ProviderDetail>, cls: string -> bool)
    requires AgreesWith(l, cls)
    requires forall k :: 0 <= k < |ds| ==> ds[k].info.uuid != "" && IsSponsor(ds[k]) == cls(ds[k].info.uuid)
    ensures TotalLength(AnnounceAll(l, ds)) == TotalLength(l) + |ds|
    ensures AgreesWith(AnnounceAll(l, ds), cls)
    decreases |ds|
  {
    if ds != [] {
      var d := ds[0];
      NeverBothWhenAgreeing(l, cls, d);
      var l' := Announce(l, d);
      assert l' == HandleNew(l, d);
      assert AgreesWith(l', cls);
      RepeatedAnnouncementsAllAppend(l', ds[1..], cls);
    }
  }

  /** Some announcement in `ds` carries uuid `u` and the sponsor rdns. */
  ghost predicate AnnouncedAsSponsor(ds: seq<ProviderDetail>, u: string) {
    exists k :: 0 <= k < |ds| && ds[k].info.uuid == u && IsSponsor(ds[k])
  }

  /** With distinct uuids, a detail is classified sponsor exactly when its
      uuid was announced as sponsor. */
  lemma {:induction false} DistinctUuidClassified(ds: seq<ProviderDetail>, k: nat)
    requires k < |ds|
    requires forall a, b :: 0 <= a < b < |ds| ==> ds[a].info.uuid != ds[b].info.uuid
    ensures IsSponsor(ds[k]) == AnnouncedAsSponsor(ds, ds[k].info.uuid)
  {
    if AnnouncedAsSponsor(ds, ds[k].info.uuid) {
      var m :| 0 <= m < |ds| && ds[m].info.uuid == ds[k].info.uuid && IsSponsor(ds[m]);
    } else {
      assert !(0 <= k < |ds| && ds[k].info.uuid == ds[k].info.uuid && IsSponsor(ds[k]));
    }
  }

  /** Announcements with distinct non-empty uuids, starting from empty lists,
      leave as many entries in the two lists together as there were uuids. */
  lemma {:induction false} DistinctAnnouncementsAllRegistered(ds: seq<ProviderDetail>)
    requires forall k :: 0 <= k < |ds| ==> ds[k].info.uuid != ""
    requires forall k, m :: 0 <= k < m < |ds| ==> ds[k].info.uuid != ds[m].info.uuid
    ensures TotalLength(AnnounceAll(Empty, ds)) == |ds|
  {
    var cls := (u: string) => AnnouncedAsSponsor(ds, u);
    forall k | 0 <= k < |ds|
      ensures IsSponsor(ds[k]) == cls(ds[k].info.uuid)
    {
      DistinctUuidClassified(ds, k);
    }
    assert AgreesWith(Empty, cls);
    RepeatedAnnouncementsAllAppend(Empty, ds, cls);
  }

  /** Announcing the same wallet twice registers it twice. */
  lemma DoubleAnnouncementRegistersTwice(d: ProviderDetail)
    requires d.info.uuid != ""
    ensures TotalLength(AnnounceAll(Empty, [d, d])) == 2
  {
    var cls := (u: string) => IsSponsor(d);
    RepeatedAnnouncementsAllAppend(Empty, [d, d], cls);
  }
}
