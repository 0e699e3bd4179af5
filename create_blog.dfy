/** The blog editor (src/components/Blogs/CreateBlog.jsx): a title, a text
    and pictures read as data URLs. */
module CreateBlogScreen {
  import opened Common

  datatype Request = PostBlog(titel: string, inhalt: string, bilder: seq<string>)

  const TitleContentRequired := "Titel und Inhalt müssen angegeben werden."
  const CreateFailed := "Fehler beim Erstellen des Blogs."

  /** The data URLs of the chosen files, in the order chosen. */
  function DataUrls(files: seq<File>): (urls: seq<string>)
    ensures |urls| == |files|
    ensures forall i :: 0 <= i < |files| ==> urls[i] == files[i].dataUrl
  {
    seq(|files|, i requires 0 <= i < |files| => files[i].dataUrl)
  }

  class CreateBlog {
    var titel: string
    var inhalt: string
    var bilder: seq<string>
    var error: string
    var success: string
    var loading: bool

    constructor()
      ensures titel == "" && inhalt == "" && bilder == [] && error == "" && success == "" && !loading
    {
      titel, inhalt, bilder, error, success, loading := "", "", [], "", "", false;
    }

    method SetTitel(t: string)
      modifies this`titel
      ensures titel == t
    {
      titel := t;
    }

    method SetInhalt(t: string)
      modifies this`inhalt
      ensures inhalt == t
    {
      inhalt := t;
    }

    /** Replaces the pictures by the chosen files' data URLs (FileReader is taken to succeed). */
    method HandleBildUpload(files: seq<File>)
      modifies this`bilder
      ensures bilder == DataUrls(files)
    {
      bilder := DataUrls(files);
    }

    /** Publishes the post. Both messages are cleared first; an empty title or
        text stops with an error; success shows the backend's message (nothing
        when it sent none) and empties the form; loading always ends false. */
    method HandleSubmit(response: Outcome<Option<string>>) returns (request: Option<Request>)
      modifies this`titel, this`inhalt, this`bilder, this`error, this`success, this`loading
      ensures !loading
      ensures old(titel) == "" || old(inhalt) == "" ==>
        request == None && error == TitleContentRequired && success == ""
        && titel == old(titel) && inhalt == old(inhalt) && bilder == old(bilder)
      ensures old(titel) != "" && old(inhalt) != "" ==> request == Some(PostBlog(old(titel), old(inhalt), old(bilder)))
      ensures old(titel) != "" && old(inhalt) != "" && response.Success? ==>
        success == OrElse(response.body, "") && error == "" && titel == "" && inhalt == "" && bilder == []
      ensures old(titel) != "" && old(inhalt) != "" && response.Failure? ==>
        error == ErrorText(response.error, CreateFailed) && success == ""
        && titel == old(titel) && inhalt == old(inhalt) && bilder == old(bilder)
    {
      error := "";
      success := "";
      loading := true;
      if titel == "" || inhalt == "" {
        error := TitleContentRequired;
        loading := false;
        return None;
      }
      request := Some(PostBlog(titel, inhalt, bilder));
      if response.Success? {
        success := OrElse(response.body, "");
        titel, inhalt, bilder := "", "", [];
      } else {
        error := ErrorText(response.error, CreateFailed);
      }
      loading := false;
    }
  }
}
