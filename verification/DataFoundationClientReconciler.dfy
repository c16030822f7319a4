/** The DataFoundationClient sub-reconciler (controllers/datafoundationclient.go), phase by phase, proved like the
    other one to run its program or a prefix of it. */
module DataFoundationClientReconciler {
  import opened Wrappers
  import opened ObjectMeta
  import opened ObjectStore
  import opened Phases
  import opened DataFoundationPhases
  import opened DataFoundationReconciler

  class DataFoundationClient {
    const api: Server<Id, Object>
    const inp: Input

    constructor (api: Server<Id, Object>, inp: Input)
      ensures this.api == api && this.inp == inp
    {
      this.api, this.inp := api, inp;
    }

    /** Unlike the other CSV phase this one neither reads the CSV again nor compares. */
    method ReconcileCSV(csvs: seq<string>) returns (ending: Ending<Id>)
      requires inp.plugin.DataFoundationClient? && Enumerates(csvs, ClusterServiceVersion, api.store.objects)
      modifies api
      ensures Ran(PlanOf(inp), [ClientCsvOp(csvs)], old(api.store), api.store, ending)
    {
      ghost var op := ClientCsvOp(csvs);
      NothingRan(PlanOf(inp), [op], api.store);
      var listed, items := api.List(Ids(ClusterServiceVersion, csvs));
      if !listed {
        return Cut;
      }
      var name := GetCSVByPrefix(csvs, CLIENT_CSV_PREFIX);
      if name.None? {
        return Refused(Failure(Stop("unable to find OCS CSV"), "unable to find OCS CSV"));
      }
      FirstIsListed(csvs, CLIENT_CSV_PREFIX);
      var id := Id(ClusterServiceVersion, name.value);
      var index :| 0 <= index < |csvs| && csvs[index] == name.value;
      ending := AdoptCSV(id, items[index]);
    }

    /** The listed CSV gets an owner and is written back. */
    method AdoptCSV(id: Id, found: Object) returns (ending: Ending<Id>)
      requires inp.plugin.DataFoundationClient? && id.kind == ClusterServiceVersion
      requires id in api.store.objects && api.store.objects[id] == found
      modifies api
      ensures Ran(PlanOf(inp), [Put(id)], old(api.store), api.store, ending)
    {
      OneOp(PlanOf(inp), Put(id), api.store);
      var csv := new Resource(found);
      var _ := csv.meta.AddOwnerReference(Some(inp.offering), false);
      var ok := api.Write(id, csv.Value());
      return if ok then Finished else Cut;
    }

    method ReconcileStorageClient() returns (ending: Ending<Id>)
      modifies api
      ensures Ran(PlanOf(inp), [Put(STORAGE_CLIENT)], old(api.store), api.store, ending)
    {
      OneOp(PlanOf(inp), Put(STORAGE_CLIENT), api.store);
      NothingRan(PlanOf(inp), [Put(STORAGE_CLIENT)], api.store);
      if inp.onboarding.endpoint == "" {
        return Refused(Failure(Put(STORAGE_CLIENT), "invalid provider endpoint"));
      }
      if inp.onboarding.ticket == "" {
        return Refused(Failure(Put(STORAGE_CLIENT), "invalid onboarding ticket"));
      }
      var got := api.Get(STORAGE_CLIENT);
      if got.Failed? {
        return Cut;
      }
      var found := if got.Found? then Some(got.value) else None;
      var storageClient := new Resource(if found.Some? then found.value else BLANK);
      var _ := storageClient.meta.AddOwnerReference(Some(inp.offering), true);
      storageClient.onboarding := Some(inp.onboarding);
      ending := Save(api, inp, STORAGE_CLIENT, found, storageClient);
    }

    /** Both claims; neither is owned by the offering. */
    method ReconcileStorageClassClaim(id: Id) returns (ending: Ending<Id>)
      requires id == BLOCK_CLAIM || id == FILESYSTEM_CLAIM
      modifies api
      ensures Ran(PlanOf(inp), [Put(id)], old(api.store), api.store, ending)
    {
      NothingRan(PlanOf(inp), [Put(id)], api.store);
      var got := api.Get(id);
      if got.Failed? {
        return Cut;
      }
      var found := if got.Found? then Some(got.value) else None;
      var claim := new Resource(if found.Some? then found.value else BLANK);
      claim.client := Some(STORAGE_CLIENT.name);
      claim.spec := if id == BLOCK_CLAIM then "blockpool" else "sharedfilesystem";
      ending := Save(api, inp, id, found, claim);
    }

    method ReconcileCSIKMSConnectionDetailsConfigMap() returns (ending: Ending<Id>)
      modifies api
      ensures Ran(PlanOf(inp), [Put(KMS_CONFIG)], old(api.store), api.store, ending)
    {
      NothingRan(PlanOf(inp), [Put(KMS_CONFIG)], api.store);
      var got := api.Get(KMS_CONFIG);
      if got.Failed? {
        return Cut;
      }
      var found := if got.Found? then Some(got.value) else None;
      var details := new Resource(if found.Some? then found.value else BLANK);
      var _ := details.meta.AddOwnerReference(Some(inp.offering), true);
      details.data := Some(map["aws-sts-metadata-test" := inp.kmsDetails]);
      ending := Save(api, inp, KMS_CONFIG, found, details);
    }

    /** The install branch of reconcilePhases. */
    method ReconcilePhases(csvs: seq<string>) returns (ending: Ending<Id>)
      requires inp.plugin.DataFoundationClient? && Enumerates(csvs, ClusterServiceVersion, api.store.objects)
      modifies api
      ensures Ran(PlanOf(inp), ClientProgram(csvs), old(api.store), api.store, ending)
    {
      ghost var s, p := api.store, ClientProgram(csvs);
      assert |p| == 5 && p[..5] == p;
      ending := ReconcileCSV(csvs);
      assert p[0..1] == [ClientCsvOp(csvs)];
      Piece(PlanOf(inp), p, 0, 1, s, s, api.store, ending);
      if !ending.Finished? { return; }
      ghost var t := api.store;
      ending := ReconcileStorageClient();
      assert p[1..2] == [Put(STORAGE_CLIENT)];
      Piece(PlanOf(inp), p, 1, 2, s, t, api.store, ending);
      if !ending.Finished? { return; }
      t := api.store;
      ending := ReconcileRest();
      assert p[2..5] == [Put(BLOCK_CLAIM), Put(FILESYSTEM_CLAIM), Put(KMS_CONFIG)];
      Piece(PlanOf(inp), p, 2, 5, s, t, api.store, ending);
    }

    /** The last three phases. */
    method ReconcileRest() returns (ending: Ending<Id>)
      modifies api
      ensures Ran(PlanOf(inp), [Put(BLOCK_CLAIM), Put(FILESYSTEM_CLAIM), Put(KMS_CONFIG)], old(api.store), api.store,
              ending)
    {
      ghost var s := api.store;
      ghost var p := [Put(BLOCK_CLAIM), Put(FILESYSTEM_CLAIM), Put(KMS_CONFIG)];
      assert p[..3] == p && p[0..1] == [Put(BLOCK_CLAIM)];
      ending := ReconcileStorageClassClaim(BLOCK_CLAIM);
      Piece(PlanOf(inp), p, 0, 1, s, s, api.store, ending);
      if !ending.Finished? { return; }
      ghost var t := api.store;
      ending := ReconcileStorageClassClaim(FILESYSTEM_CLAIM);
      assert p[1..2] == [Put(FILESYSTEM_CLAIM)];
      Piece(PlanOf(inp), p, 1, 2, s, t, api.store, ending);
      if !ending.Finished? { return; }
      t := api.store;
      ending := ReconcileCSIKMSConnectionDetailsConfigMap();
      assert p[2..3] == [Put(KMS_CONFIG)];
      Piece(PlanOf(inp), p, 2, 3, s, t, api.store, ending);
    }
  }
}
