/** The "suggest a tool" dialog: a form whose category choices depend on
    the chosen platform, and a submit handler that inserts one pending row
    for the signed-in user. Nothing in the handler validates the form: the
    choices a user can make are limited by the two select widgets only. */
module SubmitToolDialog {
  import opened Util
  import opened Auth
  import opened Store

  datatype Platform = Windows | Linux | Android | Iso

  /** The `platforms` option list, in display order. */
  const Platforms: seq<Platform> := [Windows, Linux, Android, Iso]

  /** The value stored in the `platform` column. */
  function PlatformValue(p: Platform): string {
    match p
    case Windows => "windows"
    case Linux => "linux"
    case Android => "android"
    case Iso => "iso"
  }

  /** The label the platform select shows. */
  function PlatformLabel(p: Platform): string {
    match p
    case Windows => "Windows"
    case Linux => "Linux"
    case Android => "Android"
    case Iso => "ISO"
  }

  /** The inverse of `PlatformValue`, for reading a stored row back. */
  function ParsePlatform(s: string): (r: Option<Platform>)
    ensures r.Some? ==> PlatformValue(r.value) == s
  {
    if s == "windows" then Some(Windows)
    else if s == "linux" then Some(Linux)
    else if s == "android" then Some(Android)
    else if s == "iso" then Some(Iso)
    else None
  }

  /** The static `categories` table: the categories offered per platform. */
  function Categories(p: Platform): seq<string> {
    match p
    case Windows => ["Navegadores", "Desenvolvimento", "Mídia", "Utilitários", "Escritório", "Comunicação", "Segurança"]
    case Linux => ["Navegadores", "Desenvolvimento", "Mídia", "Utilitários", "Escritório", "Sistema"]
    case Android => ["Navegadores", "Redes Sociais", "Mídia", "Utilitários", "Produtividade", "Segurança"]
    case Iso => ["Windows", "Linux", "Utilitários", "Recuperação"]
  }

  /** Every platform of the option list has a distinct stored value and a
      category list it can be read back from. */
  lemma PlatformTableConsistent()
    ensures forall p :: p in Platforms
    ensures forall p :: ParsePlatform(PlatformValue(p)) == Some(p)
    ensures forall p, q :: PlatformValue(p) == PlatformValue(q) ==> p == q
    ensures forall p, q :: PlatformLabel(p) == PlatformLabel(q) ==> p == q
    ensures forall p :: |Categories(p)| > 0
  {
    forall p ensures p in Platforms {
      match p
      case Windows => assert Platforms[0] == p;
      case Linux => assert Platforms[1] == p;
      case Android => assert Platforms[2] == p;
      case Iso => assert Platforms[3] == p;
    }
  }

  /** A few entries of the table pin it down: some categories belong to one
      platform only, some to all four lists but the disk images. */
  lemma CategoryTableFacts(p: Platform)
    ensures "Sistema" in Categories(p) <==> p == Linux
    ensures "Recuperação" in Categories(p) <==> p == Iso
    ensures "Comunicação" in Categories(p) <==> p == Windows
    ensures "Redes Sociais" in Categories(p) <==> p == Android
    ensures "Utilitários" in Categories(p)
    ensures "Navegadores" in Categories(p) <==> p != Iso
  {
    match p
    case Windows =>
      assert Categories(Windows)[1] == "Desenvolvimento";
    case Linux =>
      assert Categories(Linux)[5] == "Sistema";
    case Android =>
      assert Categories(Android)[1] == "Redes Sociais";
    case Iso =>
      assert Categories(Iso)[3] == "Recuperação";
  }

  /** The form state `formData`. */
  datatype FormData = FormData(
    name: string,
    description: string,
    category: string,
    platform: Platform,
    downloadUrl: string,
    installCommand: string,
    icon: string,
    version: string,
    size: string)

  /** The form as first shown and as reset after a successful submit. */
  const InitialForm: FormData := FormData("", "", "", Windows, "", "", "", "", "")

  /** The free-text inputs of the form. */
  datatype TextField = Name | Description | Version | Size | DownloadUrl | InstallCommand | Icon

  /** The platform select's `onValueChange`: new platform, category cleared. */
  function WithPlatform(f: FormData, p: Platform): FormData {
    f.(platform := p, category := "")
  }

  /** The category select's `onValueChange`. */
  function WithCategory(f: FormData, c: string): FormData {
    f.(category := c)
  }

  /** An input's `onChange`. */
  function WithText(f: FormData, field: TextField, v: string): FormData {
    match field
    case Name => f.(name := v)
    case Description => f.(description := v)
    case Version => f.(version := v)
    case Size => f.(size := v)
    case DownloadUrl => f.(downloadUrl := v)
    case InstallCommand => f.(installCommand := v)
    case Icon => f.(icon := v)
  }

  /** The choices the category select offers: `categories[formData.platform]`. */
  function CategoryChoices(f: FormData): seq<string> {
    Categories(f.platform)
  }

  /** The install-command input is rendered only for Linux. */
  predicate ShowsInstallCommand(f: FormData) {
    f.platform == Linux
  }

  /** The category is unset or one the select offers for the platform. */
  predicate CategoryOffered(f: FormData) {
    f.category == "" || f.category in CategoryChoices(f)
  }

  /** Switching platform changes the platform, clears the category and
      leaves every other field alone. */
  lemma PlatformChangeEffect(f: FormData, p: Platform)
    ensures WithPlatform(f, p).platform == p && WithPlatform(f, p).category == ""
    ensures WithPlatform(f, p).(platform := f.platform, category := f.category) == f
    ensures CategoryChoices(WithPlatform(f, p)) == Categories(p)
  {
  }

  /** Every edit the widgets allow keeps the category among the choices of
      the current platform, starting from the initial form. */
  lemma EditsKeepCategoryOffered(f: FormData, p: Platform, field: TextField, v: string, c: string)
    ensures CategoryOffered(InitialForm)
    ensures CategoryOffered(WithPlatform(f, p))
    ensures CategoryOffered(f) ==> CategoryOffered(WithText(f, field, v))
    ensures c in CategoryChoices(f) ==> CategoryOffered(WithCategory(f, c))
  {
  }

  /** `value || null`: an empty input is stored as null. */
  function OrNull(s: string): (r: Option<string>)
    ensures r.None? <==> s == ""
    ensures r.Some? ==> r.value == s
  {
    if s == "" then None else Some(s)
  }

  /** Reading a stored optional column back into an input: null is "". */
  function OrEmpty(o: Option<string>): (s: string)
    ensures o.Some? && o.value != "" ==> s == o.value
  {
    if o.Some? then o.value else ""
  }

  /** The object `handleSubmit` inserts. */
  function InsertRecord(f: FormData, uid: UserId): NewSubmission {
    NewSubmission(uid, f.name, f.description, f.category, PlatformValue(f.platform),
                  OrNull(f.downloadUrl), OrNull(f.installCommand), OrNull(f.icon),
                  OrNull(f.version), OrNull(f.size))
  }

  /** The form a stored payload corresponds to, if its platform is known. */
  function FormOf(n: NewSubmission): Option<FormData> {
    var p := ParsePlatform(n.platform);
    if p.None? then None
    else Some(FormData(n.name, n.description, n.category, p.value,
                       OrEmpty(n.downloadUrl), OrEmpty(n.installCommand), OrEmpty(n.icon),
                       OrEmpty(n.version), OrEmpty(n.size)))
  }

  /** The inserted object loses nothing of the form: the form can be read
      back from it, and it names the submitting user. */
  lemma {:induction false} InsertRecordRoundTrip(f: FormData, uid: UserId)
    ensures InsertRecord(f, uid).userId == uid
    ensures FormOf(InsertRecord(f, uid)) == Some(f)
  {
    PlatformTableConsistent();
    var n := InsertRecord(f, uid);
    assert OrEmpty(OrNull(f.downloadUrl)) == f.downloadUrl;
    assert OrEmpty(OrNull(f.installCommand)) == f.installCommand;
    assert OrEmpty(OrNull(f.icon)) == f.icon;
    assert OrEmpty(OrNull(f.version)) == f.version;
    assert OrEmpty(OrNull(f.size)) == f.size;
  }

  /** The inserted object names the submitting user; each optional column
      is null exactly when its input is empty, and otherwise holds the input
      verbatim; the required ones are copied. */
  lemma InsertRecordColumns(f: FormData, uid: UserId)
    ensures var n := InsertRecord(f, uid);
      && n.userId == uid
      && n.name == f.name && n.description == f.description
      && n.category == f.category && n.platform == PlatformValue(f.platform)
      && (n.downloadUrl.None? <==> f.downloadUrl == "")
      && (n.installCommand.None? <==> f.installCommand == "")
      && (n.icon.None? <==> f.icon == "")
      && (n.version.None? <==> f.version == "")
      && (n.size.None? <==> f.size == "")
      && (n.downloadUrl.Some? ==> n.downloadUrl.value == f.downloadUrl)
      && (n.installCommand.Some? ==> n.installCommand.value == f.installCommand)
      && (n.icon.Some? ==> n.icon.value == f.icon)
      && (n.version.Some? ==> n.version.value == f.version)
      && (n.size.Some? ==> n.size.value == f.size)
  {
  }

  /** The install command is sent even when its input is hidden: text typed
      under Linux survives a switch to another platform and is inserted. */
  lemma HiddenInstallCommandIsSent(f: FormData, p: Platform, uid: UserId)
    requires f.installCommand != "" && p != Linux
    ensures !ShowsInstallCommand(WithPlatform(f, p))
    ensures InsertRecord(WithPlatform(f, p), uid).installCommand == Some(f.installCommand)
  {
  }

  datatype SubmitOutcome = NotSignedIn | Submitted | Failed

  /** A stored row the dialog can produce: a known platform, a category that
      is unset or offered for that platform, and the two `required` inputs
      filled in. */
  predicate OfferedRow(r: Submission) {
    && ParsePlatform(r.platform).Some?
    && (r.category == "" || r.category in Categories(ParsePlatform(r.platform).value))
    && r.name != "" && r.description != ""
  }

  /** The state of the dialog. */
  class Dialog {
    const store: Table
    var open: bool
    var isSubmitting: bool
    var formData: FormData

    /** The category in the form is one the category select offers. */
    ghost predicate Valid()
      reads this
    {
      CategoryOffered(formData)
    }

    constructor (store: Table)
      ensures Valid()
      ensures this.store == store
      ensures !open && !isSubmitting && formData == InitialForm
    {
      this.store := store;
      open := false;
      isSubmitting := false;
      formData := InitialForm;
    }

    /** `onOpenChange`. */
    method OnOpenChange(value: bool)
      modifies this`open
      ensures open == value
    {
      open := value;
    }

    /** The platform select's `onValueChange`. */
    method OnPlatformChange(p: Platform)
      requires Valid()
      modifies this`formData
      ensures Valid()
      ensures formData == WithPlatform(old(formData), p)
    {
      formData := WithPlatform(formData, p);
    }

    /** The category select's `onValueChange`: the select offers only the
        categories of the current platform. */
    method OnCategoryChange(c: string)
      requires Valid()
      requires c in CategoryChoices(formData)
      modifies this`formData
      ensures Valid()
      ensures formData == WithCategory(old(formData), c)
    {
      formData := WithCategory(formData, c);
    }

    /** An input's `onChange`. The install-command input exists only while
        the platform is Linux. */
    method OnTextChange(field: TextField, v: string)
      requires Valid()
      requires field == InstallCommand ==> ShowsInstallCommand(formData)
      modifies this`formData
      ensures Valid()
      ensures formData == WithText(old(formData), field, v)
    {
      formData := WithText(formData, field, v);
    }

    /** `handleSubmit`. The form's constraint check calls it only with the
        `required` name and description filled in. Without a user nothing is
        inserted and nothing changes. Otherwise one insert is issued; it
        fails on a fault or on an id the table already holds; on success the
        dialog closes, the form is reset and the new row is one the widgets
        allow; on error both are left as they were; `isSubmitting` is false
        afterwards either way. */
    method HandleSubmit(user: Option<User>, id: SubmissionId, now: Timestamp, fault: bool)
      returns (outcome: SubmitOutcome)
      requires Valid() && store.Valid()
      requires formData.name != "" && formData.description != ""
      modifies this, store
      ensures Valid() && store.Valid()
      ensures outcome == Submitted ==> |store.rows| > 0 && OfferedRow(store.rows[|store.rows| - 1])
      ensures user.None? ==>
        && outcome == NotSignedIn
        && store.rows == old(store.rows)
        && open == old(open) && isSubmitting == old(isSubmitting) && formData == old(formData)
      ensures user.Some? ==>
        var failed := fault || IdTaken(old(store.rows), id);
        && outcome == (if failed then Failed else Submitted)
        && store.rows == (if failed then old(store.rows)
                          else old(store.rows) + [Created(InsertRecord(old(formData), user.value.id), id, now)])
        && open == (if failed then old(open) else false)
        && formData == (if failed then old(formData) else InitialForm)
        && !isSubmitting
    {
      if user.None? {
        return NotSignedIn;
      }
      PlatformTableConsistent();
      isSubmitting := true;
      var err := store.Insert(InsertRecord(formData, user.value.id), id, now, fault);
      if err {
        outcome := Failed;
      } else {
        open := false;
        formData := InitialForm;
        outcome := Submitted;
      }
      isSubmitting := false;
    }
  }
}
