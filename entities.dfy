/** The records the console exchanges with the remote API and the browser. */
module Entities {
  import opened Common

  /** What the browser's `File` object exposes through its prototype getters. */
  datatype FileInfo = FileInfo(name: string, size: nat, mime: string)

  /** A template field as the form and the API carry it. `kind` is the field's
      `type` and `labelText` its `label` (both words are reserved in Dafny); the
      form may hold any string in `kind`, the schema admits four. */
  datatype TemplateField = TemplateField(name: string, kind: string, required: bool, labelText: string)

  /** `TemplateCreate`: the payload of create and update, and the values of the
      template form. */
  datatype TemplateCreate = TemplateCreate(name: string, description: Option<string>, fields: seq<TemplateField>)

  datatype Template = Template(id: string, name: string, description: Option<string>, fields: seq<TemplateField>)

  /** The payload of category create and update, and the values of the category form. */
  datatype CategoryCreate = CategoryCreate(name: string, description: Option<string>)

  datatype Category = Category(id: string, name: string, description: Option<string>)

  /** The JSON metadata part of a media upload. */
  datatype MediaMetadata = MediaMetadata(categoryId: string, title: string, description: Option<string>, filename: string)
}
