/** The root catalogue: which folders and which services a run visits. The
    library's `getLists` and the batch script's `processLists` read the same
    reply (`/ArcGIS/rest/services/?f=json`), keep the names of the services
    of type `MapServer` in the server's order, and apply the configured
    allow-lists with `intersect`; they differ in how they treat a missing
    allow-list and `useRootServices`. */
module Catalog {
  import opened Common
  import opened Intersect

  /** One entry of the reply's `services`: its `name` and its `type`. */
  datatype ServiceEntry = ServiceEntry(name: string, kind: string)

  /** The parts of a (truthy) reply the two functions read; `None` when the
      member is missing or falsy. */
  datatype CatalogReply = CatalogReply(folders: Option<seq<string>>, services: Option<seq<ServiceEntry>>)

  /** The `resultlist` handed to the callback. */
  datatype Lists = Lists(services: seq<string>, folders: seq<string>)

  const MapServer := "MapServer"

  /** The names of the `MapServer` entries, in the order of the reply. */
  function MapServerNames(entries: seq<ServiceEntry>): seq<string>
  {
    if entries == [] then []
    else
      var last := entries[|entries| - 1];
      MapServerNames(entries[..|entries| - 1]) + (if last.kind == MapServer then [last.name] else [])
  }

  /** The loop that fills `newServicesList`. */
  method CollectMapServers(entries: seq<ServiceEntry>) returns (names: seq<string>)
    ensures names == MapServerNames(entries)
  {
    names := [];
    for i := 0 to |entries|
      invariant names == MapServerNames(entries[..i])
    {
      assert entries[..i + 1][..i] == entries[..i];
      if entries[i].kind == MapServer {
        names := names + [entries[i].name];
      }
    }
    assert entries[..|entries|] == entries;
  }

  /** A name is kept exactly when some `MapServer` entry carries it. */
  lemma {:induction false} MapServerNamesMembers(entries: seq<ServiceEntry>, name: string)
    ensures name in MapServerNames(entries) <==>
            exists i :: 0 <= i < |entries| && entries[i].kind == MapServer && entries[i].name == name
  {
    if entries != [] {
      var front := entries[..|entries| - 1];
      MapServerNamesMembers(front, name);
      if exists i :: 0 <= i < |front| && front[i].kind == MapServer && front[i].name == name {
        var i :| 0 <= i < |front| && front[i].kind == MapServer && front[i].name == name;
        assert entries[i] == front[i];
      }
      if exists i :: 0 <= i < |entries| && entries[i].kind == MapServer && entries[i].name == name {
        var i :| 0 <= i < |entries| && entries[i].kind == MapServer && entries[i].name == name;
        if i < |front| {
          assert front[i] == entries[i];
        }
      }
    }
  }

  /** The filter keeps the order of the reply: collecting from two parts of
      the reply is collecting from each part in turn. */
  lemma {:induction false} MapServerNamesAppend(a: seq<ServiceEntry>, b: seq<ServiceEntry>)
    ensures MapServerNames(a + b) == MapServerNames(a) + MapServerNames(b)
  {
    if b != [] {
      var b' := b[..|b| - 1];
      assert (a + b)[..|a + b| - 1] == a + b';
      assert (a + b)[|a + b| - 1] == b[|b| - 1];
      MapServerNamesAppend(a, b');
      var last := b[|b| - 1];
      var x := if last.kind == MapServer then [last.name] else [];
      assert MapServerNames(b) == MapServerNames(b') + x;
      assert MapServerNames(a + b) == MapServerNames(a) + MapServerNames(b') + x;
    } else {
      assert a + b == a;
    }
  }

  /** No more names than entries, and all of them when every entry is a
      `MapServer`. */
  lemma {:induction false} MapServerNamesLength(entries: seq<ServiceEntry>)
    ensures |MapServerNames(entries)| <= |entries|
    ensures (forall i :: 0 <= i < |entries| ==> entries[i].kind == MapServer)
            ==> |MapServerNames(entries)| == |entries|
  {
    if entries != [] {
      MapServerNamesLength(entries[..|entries| - 1]);
    }
  }

  /** A service of another type between two map services is dropped. */
  lemma MapServerNamesExample(a: string, b: string, c: string)
    ensures MapServerNames([ServiceEntry(a, MapServer), ServiceEntry(b, "FeatureServer"), ServiceEntry(c, MapServer)])
            == [a, c]
  {
    var entries := [ServiceEntry(a, MapServer), ServiceEntry(b, "FeatureServer"), ServiceEntry(c, MapServer)];
    assert entries[..2] == [ServiceEntry(a, MapServer), ServiceEntry(b, "FeatureServer")];
    assert entries[..2][..1] == [ServiceEntry(a, MapServer)];
    assert entries[..2][..1][..0] == [];
    assert "FeatureServer" != MapServer;
    assert MapServerNames(entries[..2][..1]) == [a];
    assert MapServerNames(entries[..2]) == [a];
  }

  // ---------------------------------------------------------------------------
  // The library's getLists

  /** The folders the library keeps: all of them without `useFolderList`,
      none when the allow-list is not set, the allowed ones otherwise. */
  function LibFolders(cfg: Config, folders: seq<string>): seq<string>
  {
    if !cfg.useFolderList then folders
    else if cfg.folderList.None? then []
    else Intersection(cfg.folderList.value, folders)
  }

  /** `getLists` on the reply (`None` for a falsy reply). `useServices` is
      `config.useRootServices || true`, so services are always collected. With
      `useServicesList` set but no `servicesList` the code empties `folders`
      and leaves the services unfiltered. */
  function LibLists(cfg: Config, reply: Option<CatalogReply>): Option<Lists>
  {
    if reply.None? then None
    else
      var c := reply.value;
      var folders := if c.folders.None? then [] else LibFolders(cfg, c.folders.value);
      if c.services.None? then Some(Lists([], folders))
      else
        var names := MapServerNames(c.services.value);
        if !cfg.useServicesList then Some(Lists(names, folders))
        else if cfg.servicesList.None? then Some(Lists(names, []))
        else Some(Lists(Intersection(cfg.servicesList.value, names), folders))
  }

  /** `getLists`, building `resultlist` step by step. */
  method GetLists(cfg: Config, reply: Option<CatalogReply>) returns (result: Option<Lists>)
    ensures result == LibLists(cfg, reply)
  {
    if reply.None? {
      return None;
    }
    var c := reply.value;
    var services: seq<string> := [];
    var folders: seq<string> := [];
    if c.folders.Some? {
      if !cfg.useFolderList {
        folders := c.folders.value;
      } else if cfg.folderList.None? {
        folders := [];
      } else {
        folders := Intersect.Intersect(cfg.folderList.value, c.folders.value);
      }
    }
    if c.services.Some? {
      var names := CollectMapServers(c.services.value);
      services := names;
      if cfg.useServicesList {
        if cfg.servicesList.None? {
          folders := [];
        } else {
          services := Intersect.Intersect(cfg.servicesList.value, names);
        }
      }
    }
    result := Some(Lists(services, folders));
  }

  // ---------------------------------------------------------------------------
  // The batch script's processLists

  /** `processLists` on the reply. An allow-list switched on but not set makes
      `intersect` read the length of `undefined`; `retrieve` catches the error
      and calls the callback again without a value, which reports an
      incorrect response: the run gets no lists. Services are collected only
      with `useRootServices`. */
  function BatchLists(cfg: Config, reply: Option<CatalogReply>): Option<Lists>
  {
    if reply.None? then None
    else
      var c := reply.value;
      if c.folders.Some? && cfg.useFolderList && cfg.folderList.None? then None
      else if c.services.Some? && cfg.useRootServices && cfg.useServicesList && cfg.servicesList.None? then None
      else
        var folders :=
          if c.folders.None? then []
          else if cfg.useFolderList then Intersection(cfg.folderList.value, c.folders.value)
          else c.folders.value;
        var services :=
          if c.services.None? || !cfg.useRootServices then []
          else if cfg.useServicesList then Intersection(cfg.servicesList.value, MapServerNames(c.services.value))
          else MapServerNames(c.services.value);
        Some(Lists(services, folders))
  }

  /** `processLists`, building `resultlist` step by step; `None` when the
      callback ends without a value. */
  method ProcessLists(cfg: Config, reply: Option<CatalogReply>) returns (result: Option<Lists>)
    ensures result == BatchLists(cfg, reply)
  {
    if reply.None? {
      return None;
    }
    var c := reply.value;
    var services: seq<string> := [];
    var folders: seq<string> := [];
    if c.folders.Some? {
      if cfg.useFolderList {
        if cfg.folderList.None? {
          return None;
        }
        folders := Intersect.Intersect(cfg.folderList.value, c.folders.value);
      } else {
        folders := c.folders.value;
      }
    }
    if c.services.Some? {
      var names := CollectMapServers(c.services.value);
      if cfg.useRootServices {
        services := names;
        if cfg.useServicesList {
          if cfg.servicesList.None? {
            return None;
          }
          services := Intersect.Intersect(cfg.servicesList.value, names);
        }
      }
    }
    result := Some(Lists(services, folders));
  }

  // ---------------------------------------------------------------------------
  // What the two agree on, and where they part

  /** Every service either version hands on is the name of a `MapServer`
      entry of the reply, and is allowed when the allow-list applies. */
  lemma ServicesAreMapServers(cfg: Config, reply: Option<CatalogReply>, name: string)
    requires (LibLists(cfg, reply).Some? && name in LibLists(cfg, reply).value.services)
             || (BatchLists(cfg, reply).Some? && name in BatchLists(cfg, reply).value.services)
    ensures reply.Some? && reply.value.services.Some?
    ensures exists i :: 0 <= i < |reply.value.services.value| && reply.value.services.value[i].kind == MapServer
                        && reply.value.services.value[i].name == name
    ensures cfg.useServicesList && cfg.servicesList.Some? ==> name in cfg.servicesList.value
  {
    var entries := reply.value.services.value;
    var names := MapServerNames(entries);
    if cfg.useServicesList && cfg.servicesList.Some? {
      IntersectionMembers(cfg.servicesList.value, names, name);
    }
    MapServerNamesMembers(entries, name);
  }

  /** Every folder either version hands on is a folder of the reply, and is
      allowed when the allow-list applies. */
  lemma FoldersAreListed(cfg: Config, reply: Option<CatalogReply>, folder: string)
    requires (LibLists(cfg, reply).Some? && folder in LibLists(cfg, reply).value.folders)
             || (BatchLists(cfg, reply).Some? && folder in BatchLists(cfg, reply).value.folders)
    ensures reply.Some? && reply.value.folders.Some? && folder in reply.value.folders.value
    ensures cfg.useFolderList ==> cfg.folderList.Some? && folder in cfg.folderList.value
  {
    if cfg.useFolderList && cfg.folderList.Some? {
      IntersectionMembers(cfg.folderList.value, reply.value.folders.value, folder);
    }
  }

  /** Some entry of the reply is a `MapServer` named `name`. */
  predicate IsMapServer(entries: seq<ServiceEntry>, name: string)
  {
    exists i :: 0 <= i < |entries| && entries[i].kind == MapServer && entries[i].name == name
  }

  /** The library hands on a service exactly when it is the name of a
      `MapServer` entry and a set allow-list, if switched on, names it; an
      allow-list switched on but not set filters nothing. */
  lemma LibServicesExactly(cfg: Config, reply: Option<CatalogReply>, name: string)
    requires reply.Some?
    ensures LibLists(cfg, reply).Some?
    ensures name in LibLists(cfg, reply).value.services <==>
              reply.value.services.Some? && IsMapServer(reply.value.services.value, name)
              && (cfg.useServicesList && cfg.servicesList.Some? ==> name in cfg.servicesList.value)
  {
    if reply.value.services.Some? {
      var names := MapServerNames(reply.value.services.value);
      MapServerNamesMembers(reply.value.services.value, name);
      if cfg.useServicesList && cfg.servicesList.Some? {
        IntersectionMembers(cfg.servicesList.value, names, name);
      }
    }
  }

  /** The library hands on a folder exactly when the reply lists it, the
      folder allow-list, if switched on, is set and names it, and the services
      do not clear the folders (a services allow-list switched on but not
      set). */
  lemma LibFoldersExactly(cfg: Config, reply: Option<CatalogReply>, folder: string)
    requires reply.Some?
    ensures LibLists(cfg, reply).Some?
    ensures folder in LibLists(cfg, reply).value.folders <==>
              reply.value.folders.Some? && folder in reply.value.folders.value
              && (cfg.useFolderList ==> cfg.folderList.Some? && folder in cfg.folderList.value)
              && !(reply.value.services.Some? && cfg.useServicesList && cfg.servicesList.None?)
  {
    if reply.value.folders.Some? && cfg.useFolderList && cfg.folderList.Some? {
      IntersectionMembers(cfg.folderList.value, reply.value.folders.value, folder);
    }
  }

  /** The batch script gives no lists exactly when an allow-list it reads is
      switched on but not set. */
  lemma BatchListsNone(cfg: Config, reply: Option<CatalogReply>)
    requires reply.Some?
    ensures BatchLists(cfg, reply).None? <==>
              (reply.value.folders.Some? && cfg.useFolderList && cfg.folderList.None?)
              || (reply.value.services.Some? && cfg.useRootServices && cfg.useServicesList && cfg.servicesList.None?)
  {
  }

  /** When the batch script gives lists, it hands on a service exactly when
      root services are switched on, the name is that of a `MapServer` entry,
      and the allow-list, if switched on, names it. */
  lemma BatchServicesExactly(cfg: Config, reply: Option<CatalogReply>, name: string)
    requires BatchLists(cfg, reply).Some?
    ensures reply.Some?
    ensures name in BatchLists(cfg, reply).value.services <==>
              reply.value.services.Some? && cfg.useRootServices && IsMapServer(reply.value.services.value, name)
              && (cfg.useServicesList ==> cfg.servicesList.Some? && name in cfg.servicesList.value)
  {
    if reply.value.services.Some? && cfg.useRootServices {
      var names := MapServerNames(reply.value.services.value);
      MapServerNamesMembers(reply.value.services.value, name);
      if cfg.useServicesList {
        IntersectionMembers(cfg.servicesList.value, names, name);
      }
    }
  }

  /** When the batch script gives lists, it hands on a folder exactly when
      the reply lists it and the allow-list, if switched on, names it. */
  lemma BatchFoldersExactly(cfg: Config, reply: Option<CatalogReply>, folder: string)
    requires BatchLists(cfg, reply).Some?
    ensures reply.Some?
    ensures folder in BatchLists(cfg, reply).value.folders <==>
              reply.value.folders.Some? && folder in reply.value.folders.value
              && (cfg.useFolderList ==> cfg.folderList.Some? && folder in cfg.folderList.value)
  {
    if reply.value.folders.Some? && cfg.useFolderList {
      IntersectionMembers(cfg.folderList.value, reply.value.folders.value, folder);
    }
  }

  /** With root services switched on and every switched-on allow-list set,
      the library and the batch script select the same lists. */
  lemma ListsAgree(cfg: Config, reply: Option<CatalogReply>)
    requires cfg.useRootServices
    requires cfg.useFolderList ==> cfg.folderList.Some?
    requires cfg.useServicesList ==> cfg.servicesList.Some?
    ensures LibLists(cfg, reply) == BatchLists(cfg, reply)
  {
  }

  /** Where they part: the library collects services even with
      `useRootServices` off; an allow-list switched on but not set leaves the
      batch script without lists, while the library keeps no folders. */
  lemma ListsDiffer(cfg: Config, folders: seq<string>, entries: seq<ServiceEntry>)
    ensures var reply := Some(CatalogReply(Some(folders), Some(entries)));
            var noRoot := cfg.(useRootServices := false, useFolderList := false, useServicesList := false);
            LibLists(noRoot, reply) == Some(Lists(MapServerNames(entries), folders))
            && BatchLists(noRoot, reply) == Some(Lists([], folders))
    ensures var reply := Some(CatalogReply(Some(folders), Some(entries)));
            var unset := cfg.(useRootServices := true, useFolderList := false, useServicesList := true, servicesList := None);
            LibLists(unset, reply) == Some(Lists(MapServerNames(entries), []))
            && BatchLists(unset, reply) == None
    ensures var reply := Some(CatalogReply(Some(folders), None));
            var unset := cfg.(useFolderList := true, folderList := None);
            LibLists(unset, reply) == Some(Lists([], [])) && BatchLists(unset, reply) == None
  {
  }

  /** A falsy reply gives the callback no value in both. */
  lemma NoReplyNoLists(cfg: Config)
    ensures LibLists(cfg, None) == None && BatchLists(cfg, None) == None
  {
  }
}
