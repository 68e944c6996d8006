/**
 The form-defaults builder of utils/formDefaults.ts: it turns an optional,
 partially filled OCR record into a fully populated form record.

 Each input field that may be missing or empty is an `Option<string>`; the
 JavaScript `value || ''` on a string yields the value when it is non-empty and
 `''` when it is missing or already `''`.
 */
module FormDefaults {

  datatype Option<+T> = None | Some(value: T)

  /** The address block of an OCR record (Interfaces/IUser.ts, `alamat`). */
  datatype OcrAlamat = OcrAlamat(
    name: Option<string>,
    rt_rw: Option<string>,
    kel_desa: Option<string>,
    kecamatan: Option<string>,
    kabupaten: Option<string>,
    provinsi: Option<string>)

  /** The institution block of an OCR record; `kind` stands for the field `type`. */
  datatype OcrInstitution = OcrInstitution(
    id: Option<string>,
    name: Option<string>,
    code: Option<string>,
    address: Option<string>,
    phone: Option<string>,
    email: Option<string>,
    kind: Option<string>)

  /** An OCR record as the scanner may deliver it, any field possibly missing. */
  datatype OcrData = OcrData(
    nik: Option<string>,
    nama: Option<string>,
    tempat_lahir: Option<string>,
    tgl_lahir: Option<string>,
    jenis_kelamin: Option<string>,
    agama: Option<string>,
    status_perkawinan: Option<string>,
    pekerjaan: Option<string>,
    kewarganegaraan: Option<string>,
    alamat: Option<OcrAlamat>,
    email: Option<string>,
    password: Option<string>,
    institution: Option<OcrInstitution>,
    notes: Option<string>)

  datatype FormAlamat = FormAlamat(
    name: string,
    rt_rw: string,
    kel_desa: string,
    kecamatan: string,
    kabupaten: string,
    provinsi: string)

  datatype FormInstitution = FormInstitution(
    id: string,
    name: string,
    code: string,
    address: string,
    phone: string,
    email: string,
    kind: string)

  /** The form record: every key always present, every value a string. */
  datatype FormRecord = FormRecord(
    nik: string,
    nama: string,
    tempat_lahir: string,
    tgl_lahir: string,
    jenis_kelamin: string,
    agama: string,
    status_perkawinan: string,
    pekerjaan: string,
    kewarganegaraan: string,
    alamat: FormAlamat,
    email: string,
    password: string,
    notes: string,
    institution: FormInstitution)

  const EmptyAlamat: FormAlamat := FormAlamat("", "", "", "", "", "")

  const EmptyInstitution: FormInstitution := FormInstitution("", "", "", "", "", "", "")

  /** The form a user starts from when there is no OCR record at all. */
  const EmptyForm: FormRecord :=
    FormRecord("", "", "", "", "", "", "", "", "", EmptyAlamat, "", "", "", EmptyInstitution)

  /**
   `out` is what `input || ''` may yield: the input itself when it is a
   non-empty string, and `''` exactly when the input is missing or empty.
   */
  predicate Defaulted(input: Option<string>, out: string)
  {
    && (out == "" <==> (input == None || input == Some("")))
    && (out != "" ==> input == Some(out))
  }

  /** `input || ''` on an optional string. */
  function OrEmpty(input: Option<string>): (r: string)
    ensures Defaulted(input, r)
  {
    match input
    case None => ""
    case Some(s) => s
  }

  /** `ocrData?.alamat?.<field> || ''` for each of the six address fields. */
  function BuildAlamat(a: Option<OcrAlamat>): (r: FormAlamat)
    ensures a == None ==> r == EmptyAlamat
    ensures a.Some? ==>
      && Defaulted(a.value.name, r.name)
      && Defaulted(a.value.rt_rw, r.rt_rw)
      && Defaulted(a.value.kel_desa, r.kel_desa)
      && Defaulted(a.value.kecamatan, r.kecamatan)
      && Defaulted(a.value.kabupaten, r.kabupaten)
      && Defaulted(a.value.provinsi, r.provinsi)
  {
    match a
    case None => EmptyAlamat
    case Some(x) =>
      FormAlamat(OrEmpty(x.name), OrEmpty(x.rt_rw), OrEmpty(x.kel_desa),
                 OrEmpty(x.kecamatan), OrEmpty(x.kabupaten), OrEmpty(x.provinsi))
  }

  /** `ocrData?.institution?.<field> || ''` for each of the seven institution fields. */
  function BuildInstitution(i: Option<OcrInstitution>): (r: FormInstitution)
    ensures i == None ==> r == EmptyInstitution
    ensures i.Some? ==>
      && Defaulted(i.value.id, r.id)
      && Defaulted(i.value.name, r.name)
      && Defaulted(i.value.code, r.code)
      && Defaulted(i.value.address, r.address)
      && Defaulted(i.value.phone, r.phone)
      && Defaulted(i.value.email, r.email)
      && Defaulted(i.value.kind, r.kind)
  {
    match i
    case None => EmptyInstitution
    case Some(x) =>
      FormInstitution(OrEmpty(x.id), OrEmpty(x.name), OrEmpty(x.code), OrEmpty(x.address),
                      OrEmpty(x.phone), OrEmpty(x.email), OrEmpty(x.kind))
  }

  /** `buildFormDefaults(ocrData?)`. */
  function BuildFormDefaults(ocr: Option<OcrData>): (r: FormRecord)
    ensures r.password == ""
    ensures ocr == None ==> r == EmptyForm
    ensures ocr.Some? ==>
      && Defaulted(ocr.value.nik, r.nik)
      && Defaulted(ocr.value.nama, r.nama)
      && Defaulted(ocr.value.tempat_lahir, r.tempat_lahir)
      && Defaulted(ocr.value.tgl_lahir, r.tgl_lahir)
      && Defaulted(ocr.value.jenis_kelamin, r.jenis_kelamin)
      && Defaulted(ocr.value.agama, r.agama)
      && Defaulted(ocr.value.status_perkawinan, r.status_perkawinan)
      && Defaulted(ocr.value.pekerjaan, r.pekerjaan)
      && Defaulted(ocr.value.kewarganegaraan, r.kewarganegaraan)
      && Defaulted(ocr.value.email, r.email)
      && Defaulted(ocr.value.notes, r.notes)
    ensures ocr.Some? ==> r.alamat == BuildAlamat(ocr.value.alamat)
    ensures ocr.Some? ==> r.institution == BuildInstitution(ocr.value.institution)
  {
    match ocr
    case None => EmptyForm
    case Some(x) =>
      FormRecord(
        OrEmpty(x.nik), OrEmpty(x.nama), OrEmpty(x.tempat_lahir), OrEmpty(x.tgl_lahir),
        OrEmpty(x.jenis_kelamin), OrEmpty(x.agama), OrEmpty(x.status_perkawinan),
        OrEmpty(x.pekerjaan), OrEmpty(x.kewarganegaraan), BuildAlamat(x.alamat),
        OrEmpty(x.email), "", OrEmpty(x.notes), BuildInstitution(x.institution))
  }

  /** A form record read back as an OCR record with every field present. */
  function AsOcrData(f: FormRecord): OcrData
  {
    OcrData(
      Some(f.nik), Some(f.nama), Some(f.tempat_lahir), Some(f.tgl_lahir),
      Some(f.jenis_kelamin), Some(f.agama), Some(f.status_perkawinan),
      Some(f.pekerjaan), Some(f.kewarganegaraan),
      Some(OcrAlamat(Some(f.alamat.name), Some(f.alamat.rt_rw), Some(f.alamat.kel_desa),
                     Some(f.alamat.kecamatan), Some(f.alamat.kabupaten), Some(f.alamat.provinsi))),
      Some(f.email), Some(f.password),
      Some(OcrInstitution(Some(f.institution.id), Some(f.institution.name), Some(f.institution.code),
                          Some(f.institution.address), Some(f.institution.phone),
                          Some(f.institution.email), Some(f.institution.kind))),
      Some(f.notes))
  }

  /** Every form record with an empty password is reproduced from itself. */
  lemma RoundTrip(f: FormRecord)
    requires f.password == ""
    ensures BuildFormDefaults(Some(AsOcrData(f))) == f
  {
  }

  /** Building the defaults from their own output changes nothing. */
  lemma Idempotent(ocr: Option<OcrData>)
    ensures var f := BuildFormDefaults(ocr); BuildFormDefaults(Some(AsOcrData(f))) == f
  {
    RoundTrip(BuildFormDefaults(ocr));
  }

  /**
   The password is cleared whatever the input holds, so it is the one field on
   which two inputs differing only there always agree.
   */
  lemma PasswordIgnored(x: OcrData, password: Option<string>)
    ensures BuildFormDefaults(Some(x.(password := password))) == BuildFormDefaults(Some(x))
  {
  }

  /** A present record whose fields are all missing or empty, with no nested blocks, yields the empty form. */
  lemma EmptyRecordGivesEmptyForm(x: OcrData)
    requires x.nik in {None, Some("")} && x.nama in {None, Some("")}
    requires x.tempat_lahir in {None, Some("")} && x.tgl_lahir in {None, Some("")}
    requires x.jenis_kelamin in {None, Some("")} && x.agama in {None, Some("")}
    requires x.status_perkawinan in {None, Some("")} && x.pekerjaan in {None, Some("")}
    requires x.kewarganegaraan in {None, Some("")} && x.email in {None, Some("")}
    requires x.notes in {None, Some("")}
    requires x.alamat == None && x.institution == None
    ensures BuildFormDefaults(Some(x)) == BuildFormDefaults(None)
  {
  }
}
