/** The preference store: `Config` (the stored playlists and artists) and
    `JsonFileDb`, which keeps one `Config` in a file and updates either list
    by a read-modify-write of the whole file. */
module Preferences {
  import opened Outcomes
  import opened Resources

  class Config {
    var playlists: seq<Entity>
    var artists: seq<Entity>

    constructor ()
      ensures playlists == [] && artists == []
    {
      playlists := [];
      artists := [];
    }

    function GetPlaylists(): seq<Entity>
      reads this
    {
      playlists
    }

    function GetArtists(): seq<Entity>
      reads this
    {
      artists
    }

    method SetPlaylists(p: seq<Entity>)
      modifies this
      ensures GetPlaylists() == p && GetArtists() == old(GetArtists())
    {
      playlists := p;
    }

    method SetArtists(a: seq<Entity>)
      modifies this
      ensures GetArtists() == a && GetPlaylists() == old(GetPlaylists())
    {
      artists := a;
    }
  }

  /** The content of the stored file. */
  datatype StoredConfig = StoredConfig(playlists: seq<Entity>, artists: seq<Entity>)

  /** The file `data.json`: `None` while it does not exist. Serialisation is
      modelled as exact: what is written is what is read back. */
  class JsonFileDb {
    var file: Option<StoredConfig>

    constructor (initial: Option<StoredConfig>)
      ensures file == initial
    {
      file := initial;
    }

    /** The playlists `loadPlaylists` reads. */
    function StoredPlaylists(): seq<Entity>
      reads this
    {
      if file.None? then [] else file.value.playlists
    }

    /** The artists `loadArtists` reads. */
    function StoredArtists(): seq<Entity>
      reads this
    {
      if file.None? then [] else file.value.artists
    }

    /** A fresh `Config` with the stored lists, or empty lists when no file exists. */
    method Load() returns (c: Config)
      ensures fresh(c)
      ensures file.None? ==> c.playlists == [] && c.artists == []
      ensures file.Some? ==> c.playlists == file.value.playlists && c.artists == file.value.artists
    {
      c := new Config();
      if file.Some? {
        c.SetPlaylists(file.value.playlists);
        c.SetArtists(file.value.artists);
      }
    }

    /** Replaces the file with `c`'s lists. */
    method Save(c: Config)
      modifies this
      ensures file == Some(StoredConfig(c.playlists, c.artists))
    {
      file := Some(StoredConfig(c.playlists, c.artists));
    }

    method LoadPlaylists() returns (ps: seq<Entity>)
      ensures file.None? ==> ps == []
      ensures file.Some? ==> ps == file.value.playlists
    {
      var c := Load();
      ps := c.GetPlaylists();
    }

    method LoadArtists() returns (artists: seq<Entity>)
      ensures file.None? ==> artists == []
      ensures file.Some? ==> artists == file.value.artists
    {
      var c := Load();
      artists := c.GetArtists();
    }

    /** Stores `ps` as the playlists; the stored artists stay as they were. */
    method SavePlaylists(ps: seq<Entity>)
      modifies this
      ensures file.Some?
      ensures StoredPlaylists() == ps && StoredArtists() == old(StoredArtists())
    {
      var config := Load();
      config.SetPlaylists(ps);
      Save(config);
    }

    /** Stores `artists` as the artists; the stored playlists stay as they were. */
    method SaveArtists(artists: seq<Entity>)
      modifies this
      ensures file.Some?
      ensures StoredArtists() == artists && StoredPlaylists() == old(StoredPlaylists())
    {
      var config := Load();
      config.SetArtists(artists);
      Save(config);
    }
  }
}
