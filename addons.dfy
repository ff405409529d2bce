/**
 * The value records an install works on: the manifest that describes an addon,
 * the install location it goes into, and the addon built from the two.
 * None of them is validated: construction copies its inputs.
 */
module Addons {

  /** The kind of addon. It is stored in a manifest and never inspected. */
  datatype AddonType = NativeExtension | WebExtension | Theme | Plugin | Service

  /** A description of an installable addon. */
  datatype Manifest = Manifest(id: string, name: string, version: string, addonType: AddonType, url: string)

  /** A named place addons are installed into. */
  datatype InstallLocation = InstallLocation(name: string, baseDirectory: string)

  /** An individual addon, with the location it will be installed into. */
  datatype Addon = Addon(id: string, name: string, version: string, installUrl: string, installLocation: InstallLocation)

  /** `Manifest::new`: every argument is kept as given; nothing is rejected. */
  function NewManifest(id: string, name: string, version: string, addonType: AddonType, url: string): (m: Manifest)
    ensures m.id == id && m.name == name && m.version == version
    ensures m.addonType == addonType && m.url == url
  {
    Manifest(id, name, version, addonType, url)
  }

  /**
   * `Addon::new`: the identity and version come from the manifest, its url becomes
   * the install url, and the location is stored unchanged.
   */
  function NewAddon(manifest: Manifest, location: InstallLocation): (a: Addon)
    ensures a.id == manifest.id && a.name == manifest.name && a.version == manifest.version
    ensures a.installUrl == manifest.url
    ensures a.installLocation == location
  {
    Addon(manifest.id, manifest.name, manifest.version, manifest.url, location)
  }

  /** The addon type is the only part of a manifest that an addon does not keep. */
  lemma AddonForgetsOnlyType(m1: Manifest, l1: InstallLocation, m2: Manifest, l2: InstallLocation)
    ensures NewAddon(m1, l1) == NewAddon(m2, l2) <==> m1.(addonType := m2.addonType) == m2 && l1 == l2
  {
  }

  /** `InstallLocation::new`: name and base directory are kept as given. */
  function NewInstallLocation(name: string, baseDirectory: string): (l: InstallLocation)
    ensures l.name == name && l.baseDirectory == baseDirectory
  {
    InstallLocation(name, baseDirectory)
  }

  /** `get_download_directory`: a fixed name, whatever the location. */
  function DownloadDirectory(location: InstallLocation): (d: string)
    ensures d == "downloaddir"
  {
    "downloaddir"
  }

  /** `get_staging_directory`: a fixed name, whatever the location. */
  function StagingDirectory(location: InstallLocation): (d: string)
    ensures d == "stagedir"
  {
    "stagedir"
  }

  /**
   * Neither directory depends on the location's name or base directory, so every
   * request (on any location) gives the same answer, and the download and staging
   * directories never coincide.
   */
  lemma DirectoriesIgnoreLocation(a: InstallLocation, b: InstallLocation)
    ensures DownloadDirectory(a) == DownloadDirectory(b)
    ensures StagingDirectory(a) == StagingDirectory(b)
    ensures DownloadDirectory(a) != StagingDirectory(b)
  {
  }
}
