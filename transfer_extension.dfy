/** The extension that registers the ICPSR importers: a flag and an importer
    map that `Initialize` sets once, and the lookups guarded by them. */
module TransferExtension {
  import opened Common

  /** The kinds of data a transfer job can move. */
  datatype DataVertical =
    | Blobs | Calendar | Contacts | Mail | Media | Music | Notes | OfflineData
    | Photos | Playlists | SocialPosts | Tasks | Videos

  const ServiceId: string := "ICPSR"

  /** The verticals `GetImporter` accepts. */
  const SupportedDataTypes: seq<DataVertical> := [Photos, SocialPosts, Notes, Calendar, Videos]

  /** The extension; `I` stands for the importers, which are opaque here. */
  class IcpsrTransferExtension<I> {
    var initialized: bool
    var importerMap: map<DataVertical, I>
    ghost var logs: seq<Level>

    /** Before initialisation there are no importers; after it, exactly the photo
        and social-post importers. */
    ghost predicate Valid()
      reads this
    {
      && (initialized ==> importerMap.Keys == {Photos, SocialPosts})
      && (!initialized ==> importerMap == map[])
    }

    constructor ()
      ensures Valid() && !initialized && logs == []
    {
      initialized := false;
      importerMap := map[];
      logs := [];
    }

    /** Register the importers built from the extension context; a second call only
        logs a severe message and changes nothing else. */
    method Initialize(photosImporter: I, postsImporter: I)
      requires Valid()
      modifies this
      ensures Valid() && initialized
      ensures old(initialized) ==> importerMap == old(importerMap) && logs == old(logs) + [Severe]
      ensures !old(initialized) ==>
                importerMap == map[Photos := photosImporter, SocialPosts := postsImporter] && logs == old(logs)
    {
      if initialized {
        logs := logs + [Severe];
        return;
      }
      importerMap := map[Photos := photosImporter, SocialPosts := postsImporter];
      initialized := true;
    }

    function GetServiceId(): (id: string)
      ensures id == "ICPSR"
    {
      ServiceId
    }

    /** The importer for `vertical`: IllegalArgumentException before initialisation or
        for an unsupported vertical; no importer (a null) for a supported vertical
        that has none registered. */
    function GetImporter(vertical: DataVertical): (r: Result<Option<I>>)
      reads this
      ensures r.Failure? <==> !initialized || vertical !in SupportedDataTypes
      ensures r.Failure? ==> r.error == IllegalArgumentException
      ensures r.Success? ==> (r.value.Some? <==> vertical in importerMap)
      ensures r.Success? && r.value.Some? ==> r.value.value == importerMap[vertical]
    {
      if !initialized then Failure(IllegalArgumentException)
      else if vertical !in SupportedDataTypes then Failure(IllegalArgumentException)
      else if vertical in importerMap then Success(Some(importerMap[vertical]))
      else Success(None)
    }

    /** The extension exports nothing: every call throws IllegalArgumentException. */
    function GetExporter(vertical: DataVertical): (r: Result<()>)
      ensures r == Failure(IllegalArgumentException)
    {
      Failure(IllegalArgumentException)
    }
  }

  /** After initialisation: photos and social posts get the registered importers;
      notes, calendar and videos pass both checks but get none; every other vertical
      is refused. */
  lemma ImportersAfterInitialize<I>(e: IcpsrTransferExtension<I>, vertical: DataVertical)
    requires e.Valid() && e.initialized
    ensures vertical in {Photos, SocialPosts} ==> e.GetImporter(vertical) == Success(Some(e.importerMap[vertical]))
    ensures vertical in {Notes, Calendar, Videos} ==> e.GetImporter(vertical) == Success(None)
    ensures vertical !in {Photos, SocialPosts, Notes, Calendar, Videos} ==>
              e.GetImporter(vertical) == Failure(IllegalArgumentException)
  {
  }

  /** Before initialisation every vertical is refused. */
  lemma ImportersBeforeInitialize<I>(e: IcpsrTransferExtension<I>, vertical: DataVertical)
    requires e.Valid() && !e.initialized
    ensures e.GetImporter(vertical) == Failure(IllegalArgumentException)
  {
  }
}
