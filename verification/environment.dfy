/**
  What a program sets up before the first packet (src/pcap_classifier/src/main.cpp): a
  database that was read, and a meter of each kind that reading it has enabled.
*/
module Environments {
  import opened Wrappers
  import opened Meters
  import opened AttributeMeterFactories
  import opened ProtocolDb
  import opened ProtocolDbLaws
  import opened ProtocolModelDbs
  import opened FlowModel

  /** Any database that was read, whatever meters it uses, is one that flows can be judged by. */
  lemma ReadDatabaseIsUsable(env: Env, c: Codec, factory: map<string, nat>, config: Node)
    requires ReadDb(c, factory, config) == Value(env.db)
    requires Offers(env.kinds, factory, DbEnables(c, factory, config))
    ensures env.Valid()
  {
    hide ReadDb, DbEnables, PortOrder, ValidModel, DistinctNames, Kind.Name, Kind.Slots;
    ReadDbIsValid(c, factory, config);
    forall i, a | 0 <= i < |env.db.order| && 0 <= a < |env.db.order[i].meters| && env.db.order[i].meters[a].enabled
      ensures CoversMeter(env.kinds, env.db.order[i].meters[a])
    {
      ReadingEnablesMeters(c, factory, config, env.db, i, a);
    }
  }

  lemma FewerAreOffered(kinds: seq<Kind>, sizes: map<string, nat>, names: set<string>, fewer: set<string>)
    requires Offers(kinds, sizes, names) && fewer <= names
    ensures Offers(kinds, sizes, fewer)
  {
  }

  /** The program reads its database; the factory then makes the meters of every flow.  If the file can be
      read at all, flows can be judged by it. */
  method SetUp(c: Codec, cal: Calendar, factory: AttributeMeterFactory, config: Node, now: nat, settings: Config, log2: real -> real)
    returns (db: ProtocolModelDb, env: Option<Env>)
    requires factory.Valid()
    modifies factory`enabledAttributes
    ensures fresh(db) && db.Valid() && db.initialised == env.Some?
    ensures env.Some? <==> ReadDb(c, factory.Sizes(), config).Value?
    ensures env.Some? ==>
              && env.value.Valid() && env.value.config == settings && env.value.log2 == log2
              && env.value.db == db.View() == ReadDb(c, factory.Sizes(), config).value
  {
    hide ReadDb, ReadHead, ReadOnto, DbEnables, PortOrder, Env.Valid, Offers, ProtocolModelDb.Valid;
    hide AttributeMeterFactory.Valid, AttributeMeterFactory.Sizes, AttributeMeterFactory.Enabled;
    db := new ProtocolModelDb();
    ReadOntoNothing(c, factory.Sizes(), config);
    var ok := db.Read(c, cal, factory, config, now);
    if !ok {
      return db, None;
    }
    var kinds := factory.GetAllMeters();
    var e := Env(settings, Db(db.definingLimit, db.cutoffLimit, db.version, db.protocolModelOrder, db.portHintOrder), log2, kinds);
    FewerAreOffered(kinds, factory.Sizes(), factory.Enabled(), DbEnables(c, factory.Sizes(), config));
    ReadDatabaseIsUsable(e, c, factory.Sizes(), config);
    env := Some(e);
  }
}
