/** The PWA helpers of the React client (frontend/src/pwa.js): HEIC detection, platform
    detection and the install hint, the paste handler, and picking up an image shared
    through the share sheet from the cache the service worker filled. */
module Pwa {
  import opened Wrappers
  import opened Text
  import opened Browser
  import opened Caches
  import ServiceWorker

  const SharedFileName := "shared-image.jpg"
  const IosInstallMessage := "To install: Tap the Share button, then \"Add to Home Screen\""

  /** `isHEICFile`: the declared type is exactly `image/heic` or `image/heif` (case
      matters), or the lower-cased name ends in `.heic` or `.heif` (case does not). */
  function IsHeicFile(file: File): (heic: bool)
    ensures heic <==>
      || file.mimeType == "image/heic" || file.mimeType == "image/heif"
      || TailLowersTo(file.name, ".heic") || TailLowersTo(file.name, ".heif")
  {
    EndsWithLowered(file.name, ".heic");
    EndsWithLowered(file.name, ".heif");
    || file.mimeType == "image/heic"
    || file.mimeType == "image/heif"
    || EndsWith(ToLower(file.name), ".heic")
    || EndsWith(ToLower(file.name), ".heif")
  }

  /** A file whose name ends in `.heic` or `.heif` written in any mix of cases is a HEIC
      file, whatever type it declares. */
  lemma HeicNameInAnyCase(stem: string, extension: string, mimeType: string, bytes: seq<bv8>)
    requires ToLower(extension) == ".heic" || ToLower(extension) == ".heif"
    ensures IsHeicFile(File(stem + extension, mimeType, bytes))
  {
  }

  /** For a name without either extension, in any case, the declared type alone decides. */
  lemma HeicTypeDecidesForOtherNames(name: string, mimeType: string, bytes: seq<bv8>)
    requires !EndsWith(ToLower(name), ".heic") && !EndsWith(ToLower(name), ".heif")
    ensures IsHeicFile(File(name, mimeType, bytes)) <==> mimeType == "image/heic" || mimeType == "image/heif"
  {
  }

  /** The declared type is compared as written: an upper-case `IMAGE/HEIC` on a `.jpg`
      name is not a HEIC file. */
  lemma HeicTypeIsCaseSensitive(bytes: seq<bv8>)
    ensures !IsHeicFile(File("photo.jpg", "IMAGE/HEIC", bytes))
    ensures IsHeicFile(File("photo.jpg", "image/heic", bytes))
  {
    var lowered := ToLower("photo.jpg");
    assert lowered[4] == 'o';
  }

  /** The device names the user agent is searched for. */
  const IosDevices: seq<string> := ["iPad", "iPhone", "iPod"]

  /** `isIOS`: the user agent names an iPad, iPhone or iPod, or the platform reports
      "MacIntel" with more than one touch point (an iPad Pro asking for the desktop site). */
  function IsIos(userAgent: string, platform: string, maxTouchPoints: int): (ios: bool)
    ensures platform == "MacIntel" && maxTouchPoints > 1 ==> ios
    ensures !(platform == "MacIntel" && maxTouchPoints > 1) ==>
      (ios <==> exists device :: device in IosDevices && Contains(userAgent, device))
  {
    assert forall device :: device in IosDevices <==> device == "iPad" || device == "iPhone" || device == "iPod";
    assert (exists device :: device in IosDevices && Contains(userAgent, device)) <==>
      Contains(userAgent, "iPad") || Contains(userAgent, "iPhone") || Contains(userAgent, "iPod");
    || Contains(userAgent, "iPad")
    || Contains(userAgent, "iPhone")
    || Contains(userAgent, "iPod")
    || (platform == "MacIntel" && maxTouchPoints > 1)
  }

  /** A desktop Mac (no more than one touch point) counts as iOS only through its user agent. */
  lemma DesktopMacIsNotIos(userAgent: string, maxTouchPoints: int)
    requires maxTouchPoints <= 1
    requires !Contains(userAgent, "iPad") && !Contains(userAgent, "iPhone") && !Contains(userAgent, "iPod")
    ensures !IsIos(userAgent, "MacIntel", maxTouchPoints)
  {
  }

  /** `isStandalone`: `navigator.standalone` is exactly `true` (it is absent outside iOS),
      or the display-mode media query matches. */
  function IsStandalone(navigatorStandalone: Option<bool>, displayModeStandalone: bool): (standalone: bool)
    ensures navigatorStandalone == Some(true) ==> standalone
    ensures navigatorStandalone != Some(true) ==> (standalone <==> displayModeStandalone)
  {
    navigatorStandalone == Some(true) || displayModeStandalone
  }

  /** What `showInstallPrompt` returns; `message` is null on other platforms. */
  datatype InstallPrompt = InstallPrompt(canInstall: bool, platform: string, message: Option<string>)

  /** `showInstallPrompt`: manual instructions on iOS when not yet installed, otherwise
      nothing to offer. */
  function ShowInstallPrompt(ios: bool, standalone: bool): (p: InstallPrompt)
    ensures p.canInstall <==> ios && !standalone
    ensures p.canInstall <==> p.platform == "ios"
    ensures p.canInstall <==> p.message.Some?
    ensures p.canInstall ==> p.message == Some(IosInstallMessage)
    ensures !p.canInstall ==> p.platform == "other"
  {
    if ios && !standalone then InstallPrompt(true, "ios", Some(IosInstallMessage))
    else InstallPrompt(false, "other", None)
  }

  /** An app already on the home screen is never offered installation. */
  lemma InstalledAppNeverPrompts(userAgent: string, platform: string, maxTouchPoints: int,
                                 navigatorStandalone: Option<bool>, displayModeStandalone: bool)
    requires IsStandalone(navigatorStandalone, displayModeStandalone)
    ensures !ShowInstallPrompt(IsIos(userAgent, platform, maxTouchPoints),
                               IsStandalone(navigatorStandalone, displayModeStandalone)).canInstall
  {
  }

  /** One clipboard item: its `type` and what `getAsFile()` gives (null for a string item). */
  datatype ClipboardItem = ClipboardItem(kind: string, file: Option<File>)

  /** The index of the first item whose type starts with `image/`, if any. */
  function FirstImageItem(items: seq<ClipboardItem>): (r: Option<nat>)
    ensures r.None? <==> forall i :: 0 <= i < |items| ==> !IsImageType(items[i].kind)
    ensures r.Some? ==> r.value < |items| && IsImageType(items[r.value].kind)
    ensures r.Some? ==> forall i :: 0 <= i < r.value ==> !IsImageType(items[i].kind)
  {
    if items == [] then None
    else if IsImageType(items[0].kind) then Some(0)
    else
      match FirstImageItem(items[1..])
      case None => None
      case Some(i) => Some(i + 1)
  }

  /** The paste handler installed by `enableFilePaste`. Without clipboard items it does
      nothing. Otherwise it stops at the first item whose type starts with `image/`: the
      default paste is prevented and that item's file, if it has one and a callback was
      given, is delivered. The callback therefore runs at most once, with that file. */
  method HandlePaste(items: Option<seq<ClipboardItem>>, hasCallback: bool)
    returns (prevented: bool, delivered: Option<File>)
    ensures items.None? ==> !prevented && delivered.None?
    ensures items.Some? ==> (prevented <==> FirstImageItem(items.value).Some?)
    ensures delivered.Some? ==>
      && hasCallback && items.Some? && FirstImageItem(items.value).Some?
      && items.value[FirstImageItem(items.value).value].file == delivered
    ensures hasCallback && items.Some? && FirstImageItem(items.value).Some? ==>
      delivered == items.value[FirstImageItem(items.value).value].file
  {
    prevented, delivered := false, None;
    if items.None? {
      return;
    }
    var list := items.value;
    var i := 0;
    while i < |list|
      invariant 0 <= i <= |list|
      invariant forall k :: 0 <= k < i ==> !IsImageType(list[k].kind)
      invariant !prevented && delivered.None?
    {
      if IsImageType(list[i].kind) {
        prevented := true;
        var file := list[i].file;
        if file.Some? && hasCallback {
          delivered := file;
        }
        break;
      }
      i := i + 1;
    }
    if prevented {
      FirstImageIsUnique(list, i);
    }
  }

  /** An image item with no image item before it is the first one. */
  lemma FirstImageIsUnique(items: seq<ClipboardItem>, i: nat)
    requires i < |items| && IsImageType(items[i].kind)
    requires forall k :: 0 <= k < i ==> !IsImageType(items[k].kind)
    ensures FirstImageItem(items) == Some(i)
  {
  }

  /** The file the page builds from the shared image's blob. */
  function SharedFile(image: Blob): (f: File)
    ensures f.name == SharedFileName && f.mimeType == image.mimeType && f.bytes == image.bytes
  {
    File(SharedFileName, image.mimeType, image.bytes)
  }

  /** `checkSharedImage`. Unless the query string contains `share-target` it returns no
      file and touches nothing. Otherwise it opens the "shared-images" cache; when
      "/shared-image" is stored there it returns that image as `shared-image.jpg` with the
      blob's type, deletes the entry and resets the address to "/" (`urlReset`). */
  method CheckSharedImage(storage: CacheStorage, search: string) returns (file: Option<File>, urlReset: bool)
    requires storage.Valid()
    modifies storage
    ensures storage.Valid()
    ensures !Contains(search, "share-target") ==>
      file.None? && !urlReset && storage.caches == old(storage.caches) && storage.order == old(storage.order)
    ensures Contains(search, "share-target") ==>
      && ServiceWorker.SharedImagesCache in storage.caches
      && ServiceWorker.SharedImageKey !in storage.caches[ServiceWorker.SharedImagesCache]
      && storage.order == (if ServiceWorker.SharedImagesCache in old(storage.caches) then old(storage.order)
                           else old(storage.order) + [ServiceWorker.SharedImagesCache])
      && storage.caches == old(storage.caches)[ServiceWorker.SharedImagesCache :=
           EntriesOf(old(storage.caches), ServiceWorker.SharedImagesCache) - {ServiceWorker.SharedImageKey}]
    ensures Contains(search, "share-target") ==>
      var entries := EntriesOf(old(storage.caches), ServiceWorker.SharedImagesCache);
      && (urlReset <==> ServiceWorker.SharedImageKey in entries)
      && file == (if ServiceWorker.SharedImageKey in entries
                  then Some(SharedFile(entries[ServiceWorker.SharedImageKey].body)) else None)
  {
    file, urlReset := None, false;
    if !Contains(search, "share-target") {
      return;
    }
    storage.Open(ServiceWorker.SharedImagesCache);
    var entries := storage.caches[ServiceWorker.SharedImagesCache];
    if ServiceWorker.SharedImageKey in entries {
      file := Some(SharedFile(entries[ServiceWorker.SharedImageKey].body));
      var _ := storage.DeleteEntry(ServiceWorker.SharedImagesCache, ServiceWorker.SharedImageKey);
      urlReset := true;
    } else {
      assert entries - {ServiceWorker.SharedImageKey} == entries;
    }
  }

  /** The share-target handler and the page's share check composed on their own: the
      handler stores a shared image and redirects to the page with the share flag; the
      page then picks up that image once, and a second look finds nothing. How the
      browser dispatches the shared POST among the worker's fetch listeners is not part
      of this method. */
  method ShareRoundTrip(storage: CacheStorage, image: Blob)
    returns (redirect: Option<ServiceWorker.Redirect>, first: Option<File>, second: Option<File>)
    requires storage.Valid()
    modifies storage
    ensures redirect == Some(ServiceWorker.Redirect(ServiceWorker.ShareRedirect, 303))
    ensures first == Some(SharedFile(image))
    ensures second.None?
  {
    redirect := ServiceWorker.HandleShareTarget(storage, Request("POST", "/"), Some(image));
    var query := "?share-target=true";
    assert Contains(query[1..], "share-target");
    var reset;
    first, reset := CheckSharedImage(storage, query);
    second, reset := CheckSharedImage(storage, query);
  }
}
