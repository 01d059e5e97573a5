/** The records the Todoist REST API returns, with the fields the server reads. */
module Todoist {
  import opened Wrappers

  /** A task's due descriptor. `text` is its human-readable `string` field;
      `repr` is the text Python's `str()` gives for the whole descriptor mapping,
      which the project review scans for the word "overdue". */
  datatype Due = Due(text: string, repr: string)

  /** A task. `projectId` is absent when the payload has no such key or holds
      null there; any string it holds, the empty one included, is `Some`, since
      the id is used as a lookup key and compared as it is.  `due` is absent
      when the payload has no such key or a falsy value there. */
  datatype Task = Task(
    id: string,
    content: string,
    projectId: Option<string>,
    priority: int,
    due: Option<Due>
  )

  datatype Project = Project(id: string, name: string)
}
