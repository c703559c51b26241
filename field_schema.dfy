/** The declarative description of one resource's editable attributes. */
module FieldSchema {

  /** The `type` of a field descriptor; a descriptor without one is a plain `Text` input. */
  datatype FieldType =
    | Text | Textarea | Toggle | Select | Date | Number | Email
    | FileInput | MultiFile | NestedMl | NestedMlTextarea

  datatype Field = Field(key: string, caption: string, ftype: FieldType, required: bool)

  /** `file` and `multi-file` fields: never shown in the table, never seeded on edit. */
  predicate IsFileField(f: Field) {
    f.ftype == FileInput || f.ftype == MultiFile
  }

  /** `nested-ml` and `nested-ml-textarea` fields hold a `{uz, ru, oz}` object. */
  predicate IsNestedField(f: Field) {
    f.ftype == NestedMl || f.ftype == NestedMlTextarea
  }
}
