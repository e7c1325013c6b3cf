/**
 * The chat-record archive (ChatRecordRepository): a table that records are only
 * ever appended to.
 */
module ChatArchive {

  datatype ChatRecord = ChatRecord(userId: string, question: string, answer: string, createdAt: int)

  class ChatRecordRepository {
    var records: seq<ChatRecord>

    constructor ()
      ensures records == []
    {
      records := [];
    }

    /** `save(record)` of a new record: it becomes the last one. */
    method Save(record: ChatRecord)
      modifies this
      ensures records == old(records) + [record]
    {
      records := records + [record];
    }
  }
}
