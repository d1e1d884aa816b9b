/** Values shared by the torrent registry and the qBittorrent client. */
module Torrents {
  import opened Basics

  /** An info hash, by version: 40 hexadecimal digits or 64. */
  datatype Hash = V1(digits: nat) | V2(digits: nat)

  datatype Completion = Complete | Incomplete

  datatype ForceStart = NotForced | Forced

  datatype TorrentState =
    | FetchingMetadata
    | Downloading
    | DownloadStalled
    | DownloadQueued
    | Seeding
    | SeedStalled
    | SeedQueued
    | Stopped(completion: Completion)
    | Checking
    | Moving
    | MissingFiles
    | Error
    | Unknown

  /** A torrent as qBittorrent last reported it. */
  datatype Torrent = Torrent(
    name: Option<string>,
    state: TorrentState,
    progress: nat,
    size: nat,
    totalSize: nat,
    downloaded: nat,
    uploaded: nat,
    ratio: nat,
    seedingTime: nat,
    addedAt: Option<Time>,
    completedAt: Option<Time>,
    contentPath: Option<string>,
    savePath: Option<string>,
    forceStart: ForceStart)

  /** The default torrent, which a first partial update starts from. */
  const BLANK: Torrent :=
    Torrent(None, Unknown, 0, 0, 0, 0, 0, 0, 0, None, None, None, None, NotForced)

  /** The torrents in the client, by hash. */
  type Listing = map<Hash, Torrent>
}
