/**
 * Sound file paths of the soundboard (src/components/Soundboard.tsx):
 * each sound's file is resolved against the site's base URL.
 */
module Soundboard {

  predicate StartsWithSlash(path: string)
  {
    |path| > 0 && path[0] == '/'
  }

  /**
   * `getFullPath`: the base URL followed by the path with at most one
   * leading slash removed.
   */
  function GetFullPath(baseUrl: string, path: string): (r: string)
    ensures |baseUrl| <= |r| && r[..|baseUrl|] == baseUrl
    ensures StartsWithSlash(path) ==> "/" + r[|baseUrl|..] == path
    ensures !StartsWithSlash(path) ==> r[|baseUrl|..] == path
  {
    var cleanPath := if StartsWithSlash(path) then path[1..] else path;
    baseUrl + cleanPath
  }

  /** Only the first slash goes: `//x` keeps one. */
  lemma OnlyFirstSlashRemoved(baseUrl: string)
    ensures GetFullPath(baseUrl, "//x") == baseUrl + "/x"
  {
  }

  /** Unless the path starts with two slashes, no slash follows the base URL. */
  lemma NoSlashAfterBase(baseUrl: string, path: string)
    requires !(|path| >= 2 && path[0] == '/' && path[1] == '/')
    ensures var r := GetFullPath(baseUrl, path); |r| == |baseUrl| || r[|baseUrl|] != '/'
  {
  }

  datatype SoundButton = SoundButton(name: string, file: string, emoji: string)

  /** The `sounds` table. */
  const Sounds: seq<SoundButton> := [
    SoundButton("Sad Trombone", "sounds/sad-trombone.mp3", "\U{1F3BA}"),
    SoundButton("Cheering", "sounds/cheering.mp3", "\U{1F44F}"),
    SoundButton("Booing", "sounds/booing.mp3", "\U{1F44E}"),
    SoundButton("Fart", "sounds/fart.mp3", "\U{1F4A8}"),
    SoundButton("Whee", "sounds/whee.mp3", "\U{1F3A2}"),
    SoundButton("Crickets", "sounds/crickets.mp3", "\U{1F997}"),
    SoundButton("Huh", "sounds/huh.mp3", "\U{1F914}"),
    SoundButton("Joke", "sounds/joke.mp3", "\U{1F604}")
  ]

  /** Every sound file is relative, so its full path is the base URL followed by the file. */
  lemma SoundPathsAreRelative(baseUrl: string)
    ensures forall i :: 0 <= i < |Sounds| ==> !StartsWithSlash(Sounds[i].file)
    ensures forall i :: 0 <= i < |Sounds| ==> GetFullPath(baseUrl, Sounds[i].file) == baseUrl + Sounds[i].file
  {
  }
}
