/** The picture gallery (src/components/Galerie/Galerie.jsx): admins upload
    gallery pictures, a logo and a banner; admins and the board delete them;
    everybody browses the pictures in a full-screen lightbox that wraps
    around at both ends. */
module GalerieScreen {
  import opened Common

  datatype Bild = Bild(id: int, url: string)

  /** The three backend collections a delete can address. */
  datatype Endpoint = GalerieApi | LogoApi | BannerApi

  /** The requests the screen issues; the URLs and headers are not modelled. */
  datatype Request =
    | UploadGalerie(files: seq<File>)
    | UploadLogo(file: File)
    | UploadBanner(file: File)
    | DeleteImage(endpoint: Endpoint, id: int)

  /** The keys the lightbox listens to. */
  datatype Key = Escape | ArrowRight | ArrowLeft | OtherKey(name: string)

  const GalerieLoadFailed := "Galerie konnte nicht geladen werden."
  const GalerieUploadFailed := "Galerie-Upload fehlgeschlagen"
  const LogoUploadFailed := "Logo-Upload fehlgeschlagen"
  const BannerUploadFailed := "Banner-Upload fehlgeschlagen"
  const DeleteFailed := "Löschen fehlgeschlagen"

  // ---------------------------------------------------------------------------
  // The lightbox index
  // ---------------------------------------------------------------------------

  /** `nextBild`: `(i + 1) % n`; the lightbox is open only on one of the n pictures. */
  function NextIndex(i: int, n: int): (r: int)
    requires 0 <= i < n
    ensures 0 <= r < n
    ensures i < n - 1 ==> r == i + 1
    ensures i == n - 1 ==> r == 0
  {
    (i + 1) % n
  }

  /** `prevBild`: `(i - 1 + n) % n`; its left operand is never negative here,
      so JavaScript's truncating `%` and Dafny's agree. */
  function PrevIndex(i: int, n: int): (r: int)
    requires 0 <= i < n
    ensures 0 <= r < n
    ensures i > 0 ==> r == i - 1
    ensures i == 0 ==> r == n - 1
  {
    (i - 1 + n) % n
  }

  /** Going forward and then back, or back and then forward, returns to the same picture. */
  lemma NextPrevInverse(i: int, n: int)
    requires 0 <= i < n
    ensures PrevIndex(NextIndex(i, n), n) == i
    ensures NextIndex(PrevIndex(i, n), n) == i
  {
  }

  /** The key handler's effect on `activeIndex`; keys other than the three leave it alone. */
  function KeyEffect(key: Key, i: int, n: int): (r: Option<int>)
    requires 0 <= i < n
    ensures key == Escape ==> r == None
    ensures key == ArrowRight ==> r == Some(NextIndex(i, n))
    ensures key == ArrowLeft ==> r == Some(PrevIndex(i, n))
    ensures key.OtherKey? ==> r == Some(i)
    ensures r.Some? ==> 0 <= r.value < n
  {
    match key
    case Escape => None
    case ArrowRight => Some(NextIndex(i, n))
    case ArrowLeft => Some(PrevIndex(i, n))
    case OtherKey(_) => Some(i)
  }

  // ---------------------------------------------------------------------------
  // Delete: which collection and which reload
  // ---------------------------------------------------------------------------

  /** `let api = GALERIE_API; if (isLogo) api = LOGO_API; if (isBanner) api = BANNER_API;`:
      the last assignment wins, so the banner flag takes precedence. */
  function DeleteEndpoint(isLogo: bool, isBanner: bool): (e: Endpoint)
    ensures isBanner <==> e == BannerApi
    ensures e == LogoApi <==> isLogo && !isBanner
    ensures e == GalerieApi <==> !isLogo && !isBanner
  {
    var api := if isLogo then LogoApi else GalerieApi;
    if isBanner then BannerApi else api
  }

  /** The reload after a delete tests the logo flag first. */
  function ReloadAfterDelete(isLogo: bool, isBanner: bool): (e: Endpoint)
    ensures isLogo <==> e == LogoApi
    ensures e == BannerApi <==> isBanner && !isLogo
    ensures e == GalerieApi <==> !isLogo && !isBanner
  {
    if isLogo then LogoApi else if isBanner then BannerApi else GalerieApi
  }

  /** The delete and the reload address the same collection unless both flags are set. */
  lemma DeleteAndReloadAgree(isLogo: bool, isBanner: bool)
    ensures DeleteEndpoint(isLogo, isBanner) == ReloadAfterDelete(isLogo, isBanner) <==> !(isLogo && isBanner)
  {
  }

  // ---------------------------------------------------------------------------
  // The banner upload's error text
  // ---------------------------------------------------------------------------

  /** The error text after a banner upload AS WRITTEN. After the upload
      succeeds the handler calls `setBanner`, which the component never
      declares: the ReferenceError is caught by the same `catch`, has no
      `response`, and so shows the fixed failure text. */
  function BannerUploadErrorAsWritten(response: Outcome<()>, error: string): (r: string)
    ensures response.Success? ==> r == BannerUploadFailed
    ensures response.Failure? ==> r == ErrorText(response.error, BannerUploadFailed)
  {
    if response.Success? then
      ErrorText(HttpError(None, None, "setBanner is not defined"), BannerUploadFailed)
    else ErrorText(response.error, BannerUploadFailed)
  }

  /** The evidently intended error text: a successful upload leaves the error as it was. */
  function BannerUploadError(response: Outcome<()>, error: string): (r: string)
    ensures response.Success? ==> r == error
    ensures response.Failure? ==> r == ErrorText(response.error, BannerUploadFailed)
  {
    if response.Success? then error else ErrorText(response.error, BannerUploadFailed)
  }

  /** As written, every successful banner upload reports a failure. */
  lemma BannerSuccessReportsFailure(error: string)
    ensures BannerUploadErrorAsWritten(Success(()), error) == BannerUploadFailed
    ensures error != BannerUploadFailed ==>
      BannerUploadErrorAsWritten(Success(()), error) != BannerUploadError(Success(()), error)
  {
  }

  /** The two agree on every failed upload. */
  lemma BannerUploadFailuresAgree(e: HttpError, error: string)
    ensures BannerUploadErrorAsWritten(Failure(e), error) == BannerUploadError(Failure(e), error)
  {
  }

  // ---------------------------------------------------------------------------
  // The screen
  // ---------------------------------------------------------------------------

  class Galerie {
    const token: Option<string>
    var bilder: seq<Bild>
    var galerieFiles: seq<File>
    var logo: Option<string>
    var logoFile: Option<File>
    var bannerFile: Option<File>
    var roles: seq<string>
    var loading: bool
    var error: string
    var activeIndex: Option<int>

    constructor(token: Option<string>)
      ensures this.token == token && bilder == [] && galerieFiles == [] && logo == None
      ensures logoFile == None && bannerFile == None && roles == [] && !loading && error == ""
      ensures activeIndex == None
    {
      this.token := token;
      bilder, galerieFiles, logo, logoFile, bannerFile := [], [], None, None, None;
      roles, loading, error, activeIndex := [], false, "", None;
    }

    /** The lightbox is closed, or open on one of the pictures. */
    predicate LightboxValid()
      reads this
    {
      activeIndex.None? || 0 <= activeIndex.value < |bilder|
    }

    /** Admins and the board may delete. */
    predicate MayDelete()
      reads this
      ensures MayDelete() ==> HasToken(token) && roles != []
    {
      HasToken(token) && (IsAdmin(roles) || IsVorstand(roles))
    }

    /** Only admins may upload, so whoever may upload may also delete. */
    predicate MayUpload()
      reads this
      ensures MayUpload() ==> MayDelete() && HasToken(token) && "admin" in roles
    {
      HasToken(token) && IsAdmin(roles)
    }

    method DecodeRoles(decoded: Decoded)
      modifies this`roles
      ensures roles == RolesOf(token, decoded)
    {
      roles := RolesOf(token, decoded);
    }

    /** Replaces the pictures. As in the component, an open lightbox is not
        closed, so its index may afterwards lie beyond the new list: this
        method does not promise `LightboxValid()`. */
    method LoadGalerie(response: Outcome<seq<Bild>>)
      modifies this`bilder, this`error
      ensures response.Success? ==> bilder == response.body && error == old(error)
      ensures response.Failure? ==> bilder == old(bilder) && error == GalerieLoadFailed
    {
      if response.Success? {
        bilder := response.body;
      } else {
        error := GalerieLoadFailed;
      }
    }

    /** `res.data.logoUrl`, or null when the request fails. */
    method LoadLogo(response: Outcome<Option<string>>)
      modifies this`logo
      ensures logo == if response.Success? then response.body else None
    {
      logo := if response.Success? then response.body else None;
    }

    method ChooseGalerieFiles(files: seq<File>)
      modifies this`galerieFiles
      ensures galerieFiles == files
    {
      galerieFiles := files;
    }

    method ChooseLogoFile(file: Option<File>)
      modifies this`logoFile
      ensures logoFile == file
    {
      logoFile := file;
    }

    method ChooseBannerFile(file: Option<File>)
      modifies this`bannerFile
      ensures bannerFile == file
    {
      bannerFile := file;
    }

    /** Uploads the chosen pictures; without pictures, a token or the admin role nothing happens.
        Success clears the selection (the reload is a separate LoadGalerie). */
    method HandleGalerieUpload(response: Outcome<()>) returns (request: Option<Request>)
      modifies this`galerieFiles, this`loading, this`error
      ensures old(galerieFiles) == [] || !MayUpload() ==>
        request == None && galerieFiles == old(galerieFiles) && loading == old(loading) && error == old(error)
      ensures old(galerieFiles) != [] && MayUpload() ==>
        request == Some(UploadGalerie(old(galerieFiles))) && !loading
        && (response.Success? ==> galerieFiles == [] && error == old(error))
        && (response.Failure? ==> galerieFiles == old(galerieFiles) && error == ErrorText(response.error, GalerieUploadFailed))
    {
      if galerieFiles == [] || !HasToken(token) || !IsAdmin(roles) {
        return None;
      }
      request := Some(UploadGalerie(galerieFiles));
      loading := true;
      if response.Success? {
        galerieFiles := [];
      } else {
        error := ErrorText(response.error, GalerieUploadFailed);
      }
      loading := false;
    }

    method HandleLogoUpload(response: Outcome<()>) returns (request: Option<Request>)
      modifies this`logoFile, this`loading, this`error
      ensures old(logoFile) == None || !MayUpload() ==>
        request == None && logoFile == old(logoFile) && loading == old(loading) && error == old(error)
      ensures old(logoFile).Some? && MayUpload() ==>
        request == Some(UploadLogo(old(logoFile).value)) && !loading
        && (response.Success? ==> logoFile == None && error == old(error))
        && (response.Failure? ==> logoFile == old(logoFile) && error == ErrorText(response.error, LogoUploadFailed))
    {
      if logoFile.None? || !HasToken(token) || !IsAdmin(roles) {
        return None;
      }
      request := Some(UploadLogo(logoFile.value));
      loading := true;
      if response.Success? {
        logoFile := None;
      } else {
        error := ErrorText(response.error, LogoUploadFailed);
      }
      loading := false;
    }

    /** The banner upload with the evidently intended success path (see BannerUploadError);
        the banner picture itself is not part of the screen's declared state. */
    method HandleBannerUpload(response: Outcome<()>) returns (request: Option<Request>)
      modifies this`bannerFile, this`loading, this`error
      ensures old(bannerFile) == None || !MayUpload() ==>
        request == None && bannerFile == old(bannerFile) && loading == old(loading) && error == old(error)
      ensures old(bannerFile).Some? && MayUpload() ==>
        request == Some(UploadBanner(old(bannerFile).value)) && !loading
        && error == BannerUploadError(response, old(error))
        && bannerFile == (if response.Success? then None else old(bannerFile))
    {
      if bannerFile.None? || !HasToken(token) || !IsAdmin(roles) {
        return None;
      }
      request := Some(UploadBanner(bannerFile.value));
      loading := true;
      if response.Success? {
        bannerFile := None;
      }
      error := BannerUploadError(response, error);
      loading := false;
    }

    /** Deletes after the role check and the confirmation. `reload` is the
        collection a successful delete reloads. */
    method HandleDeleteBild(id: int, isLogo: bool, isBanner: bool, confirmed: bool, response: Outcome<()>)
      returns (request: Option<Request>, reload: Option<Endpoint>)
      modifies this`error
      ensures request.Some? <==> MayDelete() && confirmed
      ensures request.Some? ==> request.value == DeleteImage(DeleteEndpoint(isLogo, isBanner), id)
      ensures reload.Some? <==> request.Some? && response.Success?
      ensures reload.Some? ==> reload.value == ReloadAfterDelete(isLogo, isBanner)
      ensures error == if request.Some? && response.Failure? then DeleteFailed else old(error)
    {
      if !HasToken(token) || (!IsAdmin(roles) && !IsVorstand(roles)) {
        return None, None;
      }
      if !confirmed {
        return None, None;
      }
      request := Some(DeleteImage(DeleteEndpoint(isLogo, isBanner), id));
      if response.Success? {
        reload := Some(ReloadAfterDelete(isLogo, isBanner));
      } else {
        reload := None;
        error := DeleteFailed;
      }
    }

    /** A click on a grid picture opens it. */
    method OpenImage(index: int)
      requires 0 <= index < |bilder|
      modifies this`activeIndex
      ensures activeIndex == Some(index) && LightboxValid()
    {
      activeIndex := Some(index);
    }

    method CloseFullscreen()
      modifies this`activeIndex
      ensures activeIndex == None
    {
      activeIndex := None;
    }

    /** The "›" button, and ArrowRight. */
    method ShowNext()
      requires activeIndex.Some? && LightboxValid()
      modifies this`activeIndex
      ensures activeIndex == Some(NextIndex(old(activeIndex).value, |bilder|)) && LightboxValid()
    {
      activeIndex := Some(NextIndex(activeIndex.value, |bilder|));
    }

    /** The "‹" button, and ArrowLeft. */
    method ShowPrevious()
      requires activeIndex.Some? && LightboxValid()
      modifies this`activeIndex
      ensures activeIndex == Some(PrevIndex(old(activeIndex).value, |bilder|)) && LightboxValid()
    {
      activeIndex := Some(PrevIndex(activeIndex.value, |bilder|));
    }

    /** A key press: the listener exists only while a picture is open. */
    method HandleKey(key: Key)
      requires LightboxValid()
      modifies this`activeIndex
      ensures old(activeIndex).None? ==> activeIndex == None
      ensures old(activeIndex).Some? ==> activeIndex == KeyEffect(key, old(activeIndex).value, |bilder|)
      ensures LightboxValid()
    {
      if activeIndex.None? {
        return;
      }
      if key == Escape {
        CloseFullscreen();
      } else if key == ArrowRight {
        ShowNext();
      } else if key == ArrowLeft {
        ShowPrevious();
      }
    }
  }
}
