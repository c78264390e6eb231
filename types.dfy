/** The shapes shared by the web front end: a node of the virtual filesystem
    and one step of a breadcrumb trail (types.ts). */
module Types {
  import opened Common

  /** The four node kinds; only FOLDER nodes have children. */
  datatype FileType = Folder | Video | Image | Unknown

  /** One node of the virtual filesystem. Optional fields are `None` where the
      TypeScript object leaves them `undefined`; `parentId` is `None` only for
      the root. `size`, `date` and the storage labels are display strings. */
  datatype FileData = FileData(
    id: string,
    name: string,
    kind: FileType,
    size: Option<string>,
    date: Option<string>,
    url: Option<string>,
    parentId: Option<string>,
    thumbnail: Option<string>,
    storageTotal: Option<string>,
    storageUsed: Option<string>,
    usagePct: Option<int>)

  /** A node with only the required fields set. */
  function Plain(id: string, name: string, kind: FileType, parentId: Option<string>): FileData
  {
    FileData(id, name, kind, None, None, None, parentId, None, None, None, None)
  }

  datatype Breadcrumb = Breadcrumb(id: string, name: string)
}
