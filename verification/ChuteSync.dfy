/** The start of `Gepetto.reconcile`: bringing the rows of the chutes table in line with the validators' catalogues,
    first by their definitions, then by the images those name. */
module ChuteSync {
  import opened Options
  import Reconciler

  // What decides whether two definitions are the same; `rest` stands for code, GPUs and the other fields.
  datatype Definition = Definition(image: string, chutesVersion: string, rest: string)

  datatype Row = Row(chuteId: string, validator: string, name: string, version: string, def: Definition)

  // A line of a validator's catalogue; there is one per validator and chute.
  datatype Offer = Offer(
    chuteId: string, validator: string, name: string, version: string, def: Definition, imageId: Option<string>)

  datatype Image = Image(image: string, chutesVersion: string)

  predicate IsFor(o: Offer, r: Row) {
    o.chuteId == r.chuteId && o.validator == r.validator
  }

  // The hashes compared are those of the name and the definition.
  predicate Differs(o: Offer, r: Row) {
    o.name != r.name || o.def != r.def
  }

  function OfferFor(offers: seq<Offer>, r: Row): Option<Offer> {
    if offers == [] then None else if IsFor(offers[0], r) then Some(offers[0]) else OfferFor(offers[1..], r)
  }

  ghost predicate OncePerChute(offers: seq<Offer>) {
    forall i, j :: 0 <= i < j < |offers| ==>
      offers[i].chuteId != offers[j].chuteId || offers[i].validator != offers[j].validator
  }

  ghost predicate UniqueIds(rows: seq<Row>) {
    forall i, j :: 0 <= i < j < |rows| ==> rows[i].chuteId != rows[j].chuteId
  }

  // ---- Definitions ----

  // `chute_updated` on an existing row copies the definition and the version, and not the name.
  function Updated(r: Row, o: Offer): Row {
    r.(version := o.version, def := o.def)
  }

  // `reachable` says whether the validator hands out the definition.
  function SyncedRow(r: Row, offers: seq<Offer>, reachable: Offer -> bool): Row {
    match OfferFor(offers, r)
    case None => r
    case Some(o) => if Differs(o, r) && reachable(o) then Updated(r, o) else r
  }

  function Each(rows: seq<Row>, f: Row -> Row): seq<Row> {
    seq(|rows|, i requires 0 <= i < |rows| => f(rows[i]))
  }

  function Synced(rows: seq<Row>, offers: seq<Offer>, reachable: Offer -> bool): seq<Row> {
    Each(rows, (r: Row) => SyncedRow(r, offers, reachable))
  }

  // The updates asked for, in the order of the catalogues.
  function Requests(rows: seq<Row>, offers: seq<Offer>): seq<Offer>
    decreases |offers|
  {
    if offers == [] then []
    else
      var n := |offers| - 1;
      Requests(rows, offers[..n])
      + if exists r :: r in rows && IsFor(offers[n], r) && Differs(offers[n], r) then [offers[n]] else []
  }

  // ---- Images ----

  predicate Uses(offers: seq<Offer>, image: string, chuteId: string) {
    exists o :: o in offers && o.imageId == Some(image) && o.chuteId == chuteId
  }

  // The image ids in the order they first appear.
  function ImageIds(offers: seq<Offer>): seq<string> {
    if offers == [] then []
    else
      var n := |offers| - 1;
      var before := ImageIds(offers[..n]);
      if offers[n].imageId.None? || offers[n].imageId.value in before then before
      else before + [offers[n].imageId.value]
  }

  // The first known image used by the chute.
  function ImageFor(ids: seq<string>, offers: seq<Offer>, images: map<string, Image>, chuteId: string): Option<Image> {
    if ids == [] then None
    else if Uses(offers, ids[0], chuteId) && ids[0] in images then Some(images[ids[0]])
    else ImageFor(ids[1..], offers, images, chuteId)
  }

  function WithImage(r: Row, image: Option<Image>): Row {
    match image
    case None => r
    case Some(i) => r.(def := r.def.(image := i.image, chutesVersion := i.chutesVersion))
  }

  function Imaged(rows: seq<Row>, offers: seq<Offer>, images: map<string, Image>): seq<Row> {
    Each(rows, (r: Row) => WithImage(r, ImageFor(ImageIds(offers), offers, images, r.chuteId)))
  }

  // ---- As the source does it ----

  lemma {:induction false} OfferForSnoc(offers: seq<Offer>, o: Offer, r: Row)
    ensures OfferFor(offers + [o], r)
         == if OfferFor(offers, r).Some? then OfferFor(offers, r) else if IsFor(o, r) then Some(o) else None
  {
    if offers == [] {
      assert (offers + [o])[1..] == [];
    } else {
      OfferForSnoc(offers[1..], o, r);
      assert (offers + [o])[1..] == offers[1..] + [o];
    }
  }

  lemma {:induction false} OfferForFinds(offers: seq<Offer>, r: Row)
    ensures OfferFor(offers, r).Some? <==> exists o :: o in offers && IsFor(o, r)
    ensures OfferFor(offers, r).Some? ==> OfferFor(offers, r).value in offers && IsFor(OfferFor(offers, r).value, r)
  {
    if offers != [] {
      OfferForFinds(offers[1..], r);
      assert offers == [offers[0]] + offers[1..];
    }
  }

  // One more offer changes only the row it is for, which no earlier offer was for.
  lemma SyncedRowStep(r: Row, offers: seq<Offer>, i: nat, reachable: Offer -> bool)
    requires i < |offers| && OncePerChute(offers)
    ensures IsFor(offers[i], r) ==> SyncedRow(r, offers[..i], reachable) == r
    ensures SyncedRow(r, offers[..i + 1], reachable)
         == if IsFor(offers[i], r) && Differs(offers[i], r) && reachable(offers[i]) then Updated(r, offers[i])
            else SyncedRow(r, offers[..i], reachable)
  {
    assert offers[..i + 1] == offers[..i] + [offers[i]];
    OfferForSnoc(offers[..i], offers[i], r);
    OfferForFinds(offers[..i], r);
    if IsFor(offers[i], r) {
      forall o | o in offers[..i] ensures !IsFor(o, r) {
        var k :| 0 <= k < i && offers[k] == o;
      }
    }
  }

  // One more offer, for the whole table.
  lemma SyncedStep(rows: seq<Row>, offers: seq<Offer>, i: nat, reachable: Offer -> bool)
    requires i < |offers| && OncePerChute(offers) && UniqueIds(rows)
    ensures
      var o := offers[i];
      Synced(rows, offers[..i + 1], reachable)
      == if (exists r :: r in rows && IsFor(o, r) && Differs(o, r)) && reachable(o)
         then Each(Synced(rows, offers[..i], reachable),
                   (r: Row) => if r.chuteId == o.chuteId then Updated(r, o) else r)
         else Synced(rows, offers[..i], reachable)
  {
    var o := offers[i];
    var found := exists r :: r in rows && IsFor(o, r) && Differs(o, r);
    forall k | 0 <= k < |rows|
      ensures SyncedRow(rows[k], offers[..i + 1], reachable)
           == var now := SyncedRow(rows[k], offers[..i], reachable);
              if found && reachable(o) && now.chuteId == o.chuteId then Updated(now, o) else now
    {
      SyncedRowStep(rows[k], offers, i, reachable);
      assert rows[k] in rows;
      if found && rows[k].chuteId == o.chuteId {
        OnlyRow(rows, k, o);
      }
    }
  }

  lemma OnlyRow(rows: seq<Row>, k: nat, o: Offer)
    requires UniqueIds(rows) && k < |rows| && rows[k].chuteId == o.chuteId
    requires exists r :: r in rows && IsFor(o, r) && Differs(o, r)
    ensures IsFor(o, rows[k]) && Differs(o, rows[k])
  {
    var r :| r in rows && IsFor(o, r) && Differs(o, r);
    var j :| 0 <= j < |rows| && rows[j] == r;
  }

  // The catalogue line is for the row's chute and differs from it in name or definition.
  predicate Asks(o: Offer, r: Row) {
    o.chuteId == r.chuteId && o.validator == r.validator && (o.name != r.name || o.def != r.def)
  }

  // What a synchronisation leaves of a row: a differing line its validator hands out gives it version and definition;
  // otherwise it stays.
  ghost predicate Settled(r: Row, offers: seq<Offer>, reachable: Offer -> bool, left: Row) {
    if exists o :: o in offers && Asks(o, r) && reachable(o) then
      exists o :: o in offers && Asks(o, r) && reachable(o)
                  && left == Row(r.chuteId, r.validator, r.name, o.version, o.def)
    else left == r
  }

  lemma SyncedSettles(r: Row, offers: seq<Offer>, reachable: Offer -> bool)
    requires OncePerChute(offers)
    ensures Settled(r, offers, reachable, SyncedRow(r, offers, reachable))
  {
    OfferForFinds(offers, r);
    forall o, u | o in offers && u in offers && IsFor(o, r) && IsFor(u, r) ensures o == u {
      var i :| 0 <= i < |offers| && offers[i] == o;
      var j :| 0 <= j < |offers| && offers[j] == u;
      assert i == j || i < j || j < i;
    }
  }

  lemma {:induction false} RequestsAre(rows: seq<Row>, offers: seq<Offer>)
    ensures forall o :: o in Requests(rows, offers) <==> o in offers && exists r :: r in rows && Asks(o, r)
    decreases |offers|
  {
    if offers != [] {
      var n := |offers| - 1;
      RequestsAre(rows, offers[..n]);
      assert offers == offers[..n] + [offers[n]];
      forall r ensures Asks(offers[n], r) <==> IsFor(offers[n], r) && Differs(offers[n], r) {
      }
    }
  }

  /** The chutes table. */
  class Catalogue {
    var rows: seq<Row>

    // The comparison is with the rows as they were at the start.
    method SynchronizeChutes(offers: seq<Offer>, reachable: Offer -> bool) returns (asked: seq<Offer>)
      requires OncePerChute(offers) && UniqueIds(rows)
      modifies this
      ensures rows == Synced(old(rows), offers, reachable)
      ensures asked == Requests(old(rows), offers)
      ensures |rows| == |old(rows)| && forall k :: 0 <= k < |rows| ==> Settled(old(rows)[k], offers, reachable, rows[k])
      ensures forall o :: o in asked <==> o in offers && exists r :: r in old(rows) && Asks(o, r)
    {
      var before := rows;
      asked := [];
      for i := 0 to |offers|
        invariant rows == Synced(before, offers[..i], reachable)
        invariant asked == Requests(before, offers[..i])
      {
        var o := offers[i];
        assert offers[..i + 1][..i] == offers[..i];
        if exists r :: r in before && IsFor(o, r) && Differs(o, r) {
          asked := asked + [o];
          if reachable(o) {
            rows := Each(rows, (r: Row) => if r.chuteId == o.chuteId then Updated(r, o) else r);
          }
        }
        SyncedStep(before, offers, i, reachable);
      }
      assert offers[..|offers|] == offers;
      RequestsAre(before, offers);
      forall k | 0 <= k < |before| {
        SyncedSettles(before[k], offers, reachable);
      }
    }

    method UpdateImages(offers: seq<Offer>, images: map<string, Image>)
      modifies this
      ensures rows == Imaged(old(rows), offers, images)
    {
      var ids := ImageIds(offers);
      var done: seq<Row> := [];
      for i := 0 to |rows|
        invariant |done| == i && rows == old(rows)
        invariant forall k :: 0 <= k < i ==>
                    done[k] == WithImage(rows[k], ImageFor(ids, offers, images, rows[k].chuteId))
      {
        var image := FindImage(ids, offers, images, rows[i].chuteId);
        done := done + [WithImage(rows[i], image)];
      }
      rows := done;
    }
  }

  method FindImage(ids: seq<string>, offers: seq<Offer>, images: map<string, Image>, chuteId: string)
    returns (image: Option<Image>)
    ensures image == ImageFor(ids, offers, images, chuteId)
  {
    for i := 0 to |ids|
      invariant ImageFor(ids, offers, images, chuteId) == ImageFor(ids[i..], offers, images, chuteId)
    {
      assert ids[i..][1..] == ids[i + 1..];
      if Uses(offers, ids[i], chuteId) && ids[i] in images {
        return Some(images[ids[i]]);
      }
    }
    return None;
  }

  // ---- Which image a chute gets ----

  // The offer names an image that is known and that some offer of the chute uses.
  predicate Serves(o: Offer, offers: seq<Offer>, images: map<string, Image>, chuteId: string) {
    o.imageId.Some? && o.imageId.value in images
    && exists u :: u in offers && u.imageId == o.imageId && u.chuteId == chuteId
  }

  // No image id is listed twice, and the listed ones are those the offers name.
  lemma {:induction false} ImageIdsFacts(offers: seq<Offer>)
    ensures forall i, j :: 0 <= i < j < |ImageIds(offers)| ==> ImageIds(offers)[i] != ImageIds(offers)[j]
    ensures forall id :: id in ImageIds(offers) <==> exists o :: o in offers && o.imageId == Some(id)
  {
    if offers != [] {
      var n := |offers| - 1;
      ImageIdsFacts(offers[..n]);
      assert offers == offers[..n] + [offers[n]];
    }
  }

  // What the first `n` offers list comes first.
  lemma {:induction false} ImageIdsPrefix(offers: seq<Offer>, n: nat)
    requires n <= |offers|
    ensures ImageIds(offers[..n]) <= ImageIds(offers)
  {
    if n == |offers| {
      assert offers[..n] == offers;
    } else {
      ImageIdsPrefix(offers[..|offers| - 1], n);
      assert offers[..|offers| - 1][..n] == offers[..n];
    }
  }

  lemma {:induction false} ImageForFinds(ids: seq<string>, offers: seq<Offer>, images: map<string, Image>,
                                         chuteId: string, k: nat)
    requires k < |ids| && Uses(offers, ids[k], chuteId) && ids[k] in images
    requires forall i :: 0 <= i < k ==> !(Uses(offers, ids[i], chuteId) && ids[i] in images)
    ensures ImageFor(ids, offers, images, chuteId) == Some(images[ids[k]])
  {
    if k > 0 {
      ImageForFinds(ids[1..], offers, images, chuteId, k - 1);
    }
  }

  lemma {:induction false} ImageForMisses(ids: seq<string>, offers: seq<Offer>, images: map<string, Image>,
                                          chuteId: string)
    requires forall id :: id in ids ==> !(Uses(offers, id, chuteId) && id in images)
    ensures ImageFor(ids, offers, images, chuteId) == None
  {
    if ids != [] {
      assert ids[0] in ids;
      ImageForMisses(ids[1..], offers, images, chuteId);
    }
  }

  lemma NoneServes(listed: seq<Offer>, offers: seq<Offer>, images: map<string, Image>, chuteId: string)
    requires forall o :: o in listed ==> !Serves(o, offers, images, chuteId)
    ensures forall id :: id in ImageIds(listed) ==> !(Uses(offers, id, chuteId) && id in images)
  {
    ImageIdsFacts(listed);
  }

  /** A chute gets the image of the first offer, of whatever chute, whose image is known and used by it. */
  lemma FirstServingImage(offers: seq<Offer>, images: map<string, Image>, chuteId: string, a: nat)
    requires a < |offers| && Serves(offers[a], offers, images, chuteId)
    requires forall b :: 0 <= b < a ==> !Serves(offers[b], offers, images, chuteId)
    ensures ImageFor(ImageIds(offers), offers, images, chuteId) == Some(images[offers[a].imageId.value])
  {
    var id := offers[a].imageId.value;
    var before := ImageIds(offers[..a]);
    NoneServes(offers[..a], offers, images, chuteId);
    assert offers[..a + 1][..a] == offers[..a];
    assert ImageIds(offers[..a + 1]) == before + [id];
    ImageIdsPrefix(offers, a + 1);
    assert forall i :: 0 <= i < |before| ==> before[i] in before;
    ImageForFinds(ImageIds(offers), offers, images, chuteId, |before|);
  }

  /** And none exactly when there is no such offer. */
  lemma NoImageIff(offers: seq<Offer>, images: map<string, Image>, chuteId: string)
    ensures ImageFor(ImageIds(offers), offers, images, chuteId) == None <==>
              forall o :: o in offers ==> !Serves(o, offers, images, chuteId)
  {
    var ids := ImageIds(offers);
    if o :| o in offers && Serves(o, offers, images, chuteId) {
      var a := FirstServing(offers, images, chuteId, |offers|);
      FirstServingImage(offers, images, chuteId, a);
    } else {
      NoneServes(offers, offers, images, chuteId);
      ImageForMisses(ids, offers, images, chuteId);
    }
  }

  ghost function FirstServing(offers: seq<Offer>, images: map<string, Image>, chuteId: string, n: nat): (a: nat)
    requires n <= |offers| && exists b :: 0 <= b < n && Serves(offers[b], offers, images, chuteId)
    ensures a < n && Serves(offers[a], offers, images, chuteId)
    ensures forall b :: 0 <= b < a ==> !Serves(offers[b], offers, images, chuteId)
  {
    if exists b :: 0 <= b < n - 1 && Serves(offers[b], offers, images, chuteId)
    then FirstServing(offers, images, chuteId, n - 1)
    else n - 1
  }

  /** A row takes image and version from that record and nothing else; without one it stays. */
  lemma ImagedRow(rows: seq<Row>, offers: seq<Offer>, images: map<string, Image>, k: nat, a: nat)
    requires k < |rows| && a <= |offers|
    requires forall b :: 0 <= b < a ==> !Serves(offers[b], offers, images, rows[k].chuteId)
    requires a < |offers| ==> Serves(offers[a], offers, images, rows[k].chuteId)
    ensures
      var r, now := rows[k], Imaged(rows, offers, images)[k];
      if a == |offers| then now == r
      else
        var i := images[offers[a].imageId.value];
        now == Row(r.chuteId, r.validator, r.name, r.version, Definition(i.image, i.chutesVersion, r.def.rest))
  {
    if a < |offers| {
      FirstServingImage(offers, images, rows[k].chuteId, a);
    } else {
      forall o | o in offers ensures !Serves(o, offers, images, rows[k].chuteId) {
        var b :| 0 <= b < |offers| && offers[b] == o;
      }
      NoImageIff(offers, images, rows[k].chuteId);
    }
  }

  // ---- What a synchronisation settles ----

  /** A row synchronised with a reachable offer asks for no further update exactly when its name already was the
      offer's and the image record, if there is one, says what the offer says. */
  lemma SettlesIff(r: Row, offers: seq<Offer>, o: Offer, image: Option<Image>, reachable: Offer -> bool)
    requires OfferFor(offers, r) == Some(o) && reachable(o)
    ensures !Differs(o, WithImage(SyncedRow(r, offers, reachable), image)) <==>
              && r.name == o.name
              && (image.Some? ==> image.value == Image(o.def.image, o.def.chutesVersion))
  {
  }

  lemma NothingAsked(rows: seq<Row>, offers: seq<Offer>)
    requires forall r, o :: r in rows && o in offers && IsFor(o, r) ==> !Differs(o, r)
    ensures Requests(rows, offers) == []
    decreases |offers|
  {
    if offers != [] {
      NothingAsked(rows, offers[..|offers| - 1]);
    }
  }

  predicate ImageMatches(r: Row, o: Offer, images: map<string, Image>) {
    o.imageId.Some? && o.imageId.value in images ==>
      images[o.imageId.value] == Image(r.def.image, r.def.chutesVersion)
  }

  // Definitions and images agree with what the rows hold.
  ghost predicate Agrees(rows: seq<Row>, offers: seq<Offer>, images: map<string, Image>) {
    && (forall r, o :: r in rows && o in offers && IsFor(o, r) ==> !Differs(o, r))
    && (forall r, o :: r in rows && o in offers && o.chuteId == r.chuteId ==> ImageMatches(r, o, images))
  }

  lemma {:induction false} ImageAgrees(ids: seq<string>, rows: seq<Row>, offers: seq<Offer>, images: map<string, Image>,
                                       r: Row)
    requires Agrees(rows, offers, images) && r in rows
    ensures WithImage(r, ImageFor(ids, offers, images, r.chuteId)) == r
  {
    if ids != [] {
      ImageAgrees(ids[1..], rows, offers, images, r);
    }
  }

  function ChuteIds(rows: seq<Row>): seq<Reconciler.Chute> {
    seq(|rows|, i requires 0 <= i < |rows| => Reconciler.Chute(rows[i].validator, rows[i].chuteId, rows[i].version))
  }

  /** When definitions, images and all the other views agree, the whole pass asks for no update, changes no chute and
      no deployment, purges and undeploys nothing, and schedules no task. */
  lemma WholePassIsFixed(w: Reconciler.World, rows: seq<Row>, offers: seq<Offer>, images: map<string, Image>,
                         reachable: Offer -> bool, deployments: seq<Reconciler.Deployment>, servers: seq<string>)
    requires Agrees(rows, offers, images)
    requires Reconciler.Harmony(w, deployments, ChuteIds(rows), servers)
    ensures Requests(rows, offers) == []
    ensures Imaged(Synced(rows, offers, reachable), offers, images) == rows
    ensures
      var after := Imaged(Synced(rows, offers, reachable), offers, images);
      var p := Reconciler.Reconcile(w, deployments, ChuteIds(after), servers);
      p.rows == deployments && p.tasks == multiset{} && p.purged == {} && p.undeployed == {} && p.toRemove == {}
  {
    NothingAsked(rows, offers);
    forall k | 0 <= k < |rows| ensures SyncedRow(rows[k], offers, reachable) == rows[k] {
      OfferForFinds(offers, rows[k]);
    }
    assert Synced(rows, offers, reachable) == rows;
    forall k | 0 <= k < |rows|
      ensures WithImage(rows[k], ImageFor(ImageIds(offers), offers, images, rows[k].chuteId)) == rows[k]
    {
      ImageAgrees(ImageIds(offers), rows, offers, images, rows[k]);
    }
    assert Imaged(rows, offers, images) == rows;
    Reconciler.HarmonyIsFixed(w, deployments, ChuteIds(rows), servers);
  }
}
