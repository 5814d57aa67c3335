/** The ticket routed through the handler chain. */
module Tickets {
  import opened Levels

  class Ticket {
    var title: string
    const content: string
    var level: Level

    /** Stores the three arguments as given. */
    constructor (title: string, content: string, level: Level)
      ensures this.title == title && this.content == content && this.level == level
    {
      this.title := title;
      this.content := content;
      this.level := level;
    }

    function GetLevel(): (l: Level)
      reads this
      ensures l == level
    {
      level
    }

    function GetTitle(): (t: string)
      reads this
      ensures t == title
    {
      title
    }

    function GetContent(): (c: string)
      reads this
      ensures c == content
    {
      content
    }

    /** Replaces the level only; the assignment's value, the new level, is returned. */
    method SetLevel(level: Level) returns (r: Level)
      modifies this`level
      ensures this.level == level && r == level
      ensures title == old(title)
    {
      this.level := level;
      r := this.level;
    }

    /** Replaces the title only. */
    method UpdateTitle(newTitle: string)
      modifies this`title
      ensures title == newTitle
      ensures level == old(level)
    {
      title := newTitle;
    }

    /** Replaces the title only: the same effect as UpdateTitle. */
    method SetTitle(newTitle: string)
      modifies this`title
      ensures title == newTitle
      ensures level == old(level)
    {
      title := newTitle;
    }
  }

  /** The content is fixed at construction; after any sequence of setters the title is the last
      one set and the level the last one set. */
  method ContentSurvivesSetters(title: string, content: string, level: Level,
                                firstTitle: string, lastTitle: string, newLevel: Level)
    returns (t: Ticket)
    ensures t.GetContent() == content
    ensures t.GetTitle() == lastTitle && t.GetLevel() == newLevel
  {
    t := new Ticket(title, content, level);
    t.SetTitle(firstTitle);
    var _ := t.SetLevel(newLevel);
    t.UpdateTitle(lastTitle);
  }
}
