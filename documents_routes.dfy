/** The document routes (backend/routes/documents.py): files attached to a
    user's projects, the extensions they may have, and their metadata. */
module DocumentRoutes {
  import opened Common
  import opened Ledger

  const ProjectIdRequired := "Project ID is required"
  const InvalidProject := "Invalid project ID"
  const NoFilePart := "No file part"
  const NoFileSelected := "No file selected"
  const TypeNotAllowed := "File type not allowed"

  /** The extensions an upload may carry, in lower case. */
  const AllowedExtensions: set<string> := {"pdf", "doc", "docx", "xls", "xlsx", "txt", "png", "jpg", "jpeg", "gif"}

  /** The types `GET /documents/types` lists, in its order. */
  const DocumentTypes := ["contract", "proposal", "invoice", "specification", "design", "report", "other"]

  const DefaultDocumentType := "other"

  function DocumentId(d: Document): int
  {
    d.id
  }

  /** `name.rsplit('.', 1)[1]`: the text after the last dot. */
  function Extension(name: string): (r: string)
    requires '.' in name
    ensures |r| < |name| && name[|name| - |r| - 1] == '.' && name[|name| - |r|..] == r
    ensures '.' !in r
  {
    name[LastIndexOf(name, '.').value + 1..]
  }

  /** `allowed_file`: a dot, and an allowed extension after the last one,
      whatever its case. */
  predicate AllowedFile(filename: string)
  {
    '.' in filename && Lower(Extension(filename)) in AllowedExtensions
  }

  /** A name is allowed exactly when the text after its last dot is, in
      lower case, one of the allowed extensions. */
  lemma AllowedFileByExtension(stem: string, ext: string)
    requires '.' !in ext
    ensures AllowedFile(stem + "." + ext) <==> Lower(ext) in AllowedExtensions
  {
    ExtensionAfterLastDot(stem, ext);
  }

  lemma ExtensionAfterLastDot(stem: string, ext: string)
    requires '.' !in ext
    ensures Extension(stem + "." + ext) == ext
  {
    var s := stem + "." + ext;
    var k := LastIndexOf(s, '.').value;
    assert s[|stem|] == '.';
    assert forall i :: |stem| < i < |s| ==> s[i] == ext[i - |stem| - 1];
  }

  /** A name without a dot is never allowed, whatever it ends with. */
  lemma NoDotNotAllowed(filename: string)
    requires '.' !in filename
    ensures !AllowedFile(filename)
  {
  }

  /** The type of the stored file: the lower-cased extension of the secured
      name, or empty when it has no dot. */
  function FileExtension(secured: string): (r: string)
    ensures '.' !in secured ==> r == ""
    ensures '.' in secured ==> r == Lower(Extension(secured))
  {
    if '.' in secured then Lower(Extension(secured)) else ""
  }

  /** A `project_id` form field names an existing project of the user. The
      form field is text that the database compares with the integer key;
      the model takes a text of digits as the only match. */
  predicate FormProject(projects: map<int, Project>, uid: int, text: string)
  {
    text != "" && AllDigits(text) && OwnsProject(projects, uid, DigitsValue(text))
  }

  // ---------------------------------------------------------------- upload

  /** The text fields of an upload; `None` is an absent field. */
  datatype UploadForm = UploadForm(projectId: Option<string>, name: Option<string>,
                                   documentType: Option<string>, description: Option<string>)

  /** The saved file as the file system reports it: the secured name
      (`secure_filename` is not part of this model), the random hex of the
      stored name, the upload directory and the size in bytes. */
  datatype SavedFile = SavedFile(secured: string, hex: string, dir: string, size: int)

  /** What lines 80-128 decide for a document with id `id`: project id,
      then the project's owner, then a file part, then a file name, then an
      allowed extension. The record takes the form's name or the secured
      file name, the secured name's extension as its type, and `other` and an
      empty description by default. */
  function NewDocumentRow(projects: map<int, Project>, uid: int, form: UploadForm,
                          filename: Option<string>, saved: SavedFile, id: int): (r: Result<Document>)
    ensures !Present(form.projectId) ==> r == Err(400, ProjectIdRequired)
    ensures Present(form.projectId) && !FormProject(projects, uid, form.projectId.value) ==> r == Err(400, InvalidProject)
    ensures (Present(form.projectId) && FormProject(projects, uid, form.projectId.value)
             && filename.None?) ==> r == Err(400, NoFilePart)
    ensures (Present(form.projectId) && FormProject(projects, uid, form.projectId.value)
             && filename == Some("")) ==> r == Err(400, NoFileSelected)
    ensures (Present(form.projectId) && FormProject(projects, uid, form.projectId.value)
             && Present(filename) && !AllowedFile(filename.value)) ==> r == Err(400, TypeNotAllowed)
    ensures r.Ok? <==> Present(form.projectId) && FormProject(projects, uid, form.projectId.value)
                       && Present(filename) && AllowedFile(filename.value)
    ensures r.Ok? ==> && r.value.id == id
                      && r.value.projectId == DigitsValue(form.projectId.value)
                      && OwnsProject(projects, uid, r.value.projectId)
                      && r.value.name == (if Present(form.name) then form.name.value else saved.secured)
                      && r.value.fileType == FileExtension(saved.secured)
                      && r.value.filePath == saved.dir + "/" + saved.hex + "." + FileExtension(saved.secured)
                      && r.value.fileSize == saved.size
                      && r.value.documentType == OrElse(form.documentType, DefaultDocumentType)
                      && r.value.description == OrElse(form.description, "")
  {
    if !Present(form.projectId) then Err(400, ProjectIdRequired)
    else if !FormProject(projects, uid, form.projectId.value) then Err(400, InvalidProject)
    else if filename.None? then Err(400, NoFilePart)
    else if filename.value == "" then Err(400, NoFileSelected)
    else if !AllowedFile(filename.value) then Err(400, TypeNotAllowed)
    else
      var ext := FileExtension(saved.secured);
      Ok(Document(id, DigitsValue(form.projectId.value),
                  if Present(form.name) then form.name.value else saved.secured,
                  saved.dir + "/" + saved.hex + "." + ext, ext, saved.size,
                  OrElse(form.documentType, DefaultDocumentType), OrElse(form.description, "")))
  }

  /** Every stored upload came with an allowed file name. */
  lemma UploadIsAllowed(projects: map<int, Project>, uid: int, form: UploadForm,
                        filename: Option<string>, saved: SavedFile, id: int)
    requires NewDocumentRow(projects, uid, form, filename, saved, id).Ok?
    ensures filename.Some? && AllowedFile(filename.value)
  {
  }

  /** `POST /documents/`: `filename` is the name of the `file` part, `None`
      when the request has none. */
  method UploadDocument(db: Database, uid: int, form: UploadForm, filename: Option<string>, saved: SavedFile)
    returns (r: Result<Document>)
    requires db.Valid()
    modifies db
    ensures db.Valid()
    ensures r == NewDocumentRow(old(db.projects), uid, form, filename, saved, old(db.nextId))
    ensures r.Err? ==> unchanged(db)
    ensures r.Ok? ==> r.value.id !in old(db.documents) && db.documents == old(db.documents)[r.value.id := r.value]
    ensures unchanged(db`users, db`clients, db`projects, db`entries, db`invoices)
  {
    r := NewDocumentRow(db.projects, uid, form, filename, saved, db.nextId);
    if r.Ok? {
      var id := db.FreshId();
      db.documents := db.documents[id := r.value];
    }
  }

  // ---------------------------------------------------------------- update

  /** A body of `update_document`; `None` is an absent key. */
  datatype DocumentPatch = DocumentPatch(name: Option<string>, documentType: Option<string>,
                                         description: Option<string>)

  /** Lines 151-156: the three metadata keys present replace their values;
      the file, its type and size and the project stay. */
  function PatchDocument(d: Document, p: DocumentPatch): (r: Document)
    ensures r.id == d.id && r.projectId == d.projectId && r.filePath == d.filePath
            && r.fileType == d.fileType && r.fileSize == d.fileSize
    ensures r.name == OrElse(p.name, d.name)
    ensures r.documentType == OrElse(p.documentType, d.documentType)
    ensures r.description == OrElse(p.description, d.description)
  {
    d.(name := OrElse(p.name, d.name), documentType := OrElse(p.documentType, d.documentType),
       description := OrElse(p.description, d.description))
  }

  /** Sending the same body twice changes nothing the second time. */
  lemma PatchDocumentIdempotent(d: Document, p: DocumentPatch)
    ensures PatchDocument(PatchDocument(d, p), p) == PatchDocument(d, p)
  {
  }

  predicate OwnsDocument(documents: map<int, Document>, projects: map<int, Project>, uid: int, did: int)
  {
    did in documents && OwnsProject(projects, uid, documents[did].projectId)
  }

  /** `PUT /documents/<id>`. */
  method UpdateDocument(db: Database, uid: int, did: int, p: DocumentPatch) returns (r: Result<Document>)
    requires db.Valid()
    modifies db
    ensures db.Valid()
    ensures r.Err? <==> !OwnsDocument(old(db.documents), old(db.projects), uid, did)
    ensures r.Err? ==> r == Err(404, NotFound) && unchanged(db)
    ensures r.Ok? ==> r.value == PatchDocument(old(db.documents)[did], p)
                      && db.documents == old(db.documents)[did := r.value]
    ensures unchanged(db`users, db`clients, db`projects, db`entries, db`invoices, db`nextId)
  {
    if !OwnsDocument(db.documents, db.projects, uid, did) {
      return Err(404, NotFound);
    }
    var d := PatchDocument(db.documents[did], p);
    db.documents := db.documents[did := d];
    r := Ok(d);
  }

  /** `DELETE /documents/<id>`; removing the file is not part of this model. */
  method DeleteDocument(db: Database, uid: int, did: int) returns (r: Result<()>)
    requires db.Valid()
    modifies db
    ensures db.Valid()
    ensures r.Err? <==> !OwnsDocument(old(db.documents), old(db.projects), uid, did)
    ensures r.Err? ==> r == Err(404, NotFound) && unchanged(db)
    ensures r.Ok? ==> db.documents == old(db.documents) - {did}
    ensures unchanged(db`users, db`clients, db`projects, db`entries, db`invoices, db`nextId)
  {
    if !OwnsDocument(db.documents, db.projects, uid, did) {
      return Err(404, NotFound);
    }
    db.documents := db.documents - {did};
    r := Ok(());
  }

  // ------------------------------------------------------------------ list

  /** The query string of `GET /documents/`; `None` is an absent argument. */
  datatype DocumentQuery = DocumentQuery(projectId: Option<int>, documentType: Option<string>)

  /** Each filter applies only when it is truthy. */
  predicate DocumentMatches(q: DocumentQuery, d: Document)
  {
    (q.projectId.Some? && q.projectId.value != 0 ==> d.projectId == q.projectId.value)
    && (Present(q.documentType) ==> d.documentType == q.documentType.value)
  }

  /** `GET /documents/`: exactly the user's documents that pass the
      filters, the latest upload first. */
  method ListDocuments(db: Database, uid: int, q: DocumentQuery) returns (r: seq<Document>)
    requires db.Valid()
    ensures forall d :: d in r ==> d.id in db.documents && db.documents[d.id] == d
                                   && OwnsProject(db.projects, uid, d.projectId) && DocumentMatches(q, d)
    ensures forall k :: (k in db.documents && OwnsProject(db.projects, uid, db.documents[k].projectId)
                         && DocumentMatches(q, db.documents[k])) ==> db.documents[k] in r
    ensures forall i, j :: 0 <= i < j < |r| ==> r[i].id > r[j].id
  {
    var projects := db.projects;
    var oldest := Select(db.documents, db.nextId,
                         (d: Document) => OwnsProject(projects, uid, d.projectId) && DocumentMatches(q, d), DocumentId);
    r := Reverse(oldest);
    ReverseNewestFirst(oldest, DocumentId);
  }

  /** The default type of an upload is one of the listed types, and the
      list names each type once. */
  lemma DefaultTypeListed()
    ensures DefaultDocumentType in DocumentTypes
    ensures forall i, j :: 0 <= i < j < |DocumentTypes| ==> DocumentTypes[i] != DocumentTypes[j]
  {
  }
}
