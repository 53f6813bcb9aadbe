/** The reply engine of the chat route: `generateResponse` lowercases the
    visitor's message and walks a fixed chain of substring tests; the first
    test that succeeds selects one of thirteen literal replies. */
module ChatEngine {
  import opened JsString

  // The five replies of the pricing topic, in the order of its sub-topics.
  const SimpleSiteReply: string :=
    "Simple one-page websites start from ₹25,000. These include responsive design, a contact form, and basic SEO. Perfect for portfolios, landing pages, and startups. Final pricing varies based on specific features and complexity."

  const MediumSiteReply: string :=
    "Medium websites (3-5 pages) start from ₹40,000. These include multiple pages, better UI/UX, performance optimization, and optional AI features. Great for business websites and personal brands."

  const LargeSiteReply: string :=
    "Large websites (6-7+ pages) start from ₹55,000. These include advanced UI/UX, AI integrations, scalable architecture, and optional admin dashboards. Perfect for companies and platforms with advanced needs."

  const MaintenancePricingReply: string :=
    "We offer three maintenance plans:\n\n• Basic: ₹1,000/month (updates, backups, minor fixes)\n• Standard: ₹2,500/month (performance monitoring, content updates, security)\n• Premium: ₹5,000/month (AI optimization, feature updates, priority support)\n\nYearly plans come with discounted rates."

  const ServiceTiersReply: string :=
    "We offer three service tiers:\n\n• Simple Website (1 page): Starting from ₹25,000\n• Medium Website (3-5 pages): Starting from ₹40,000\n• Large Website (6-7+ pages): Starting from ₹55,000\n\nFinal pricing depends on complexity, features, and AI integrations. Which tier interests you?"

  // The replies of the other topics, in priority order, and the fallback menu.
  const AIReply: string :=
    "We specialize in AI-integrated websites! Our AI services include:\n\n• AI Chatbots (like this one)\n• AI Forms & Automation\n• API Integrations (OpenAI, Claude, custom models)\n• Smart dashboards with analytics\n• AI content generation tools\n\nAI features can be added to any service tier. Would you like to know more about a specific AI feature?"

  const ServicesReply: string :=
    "I build professional AI-integrated websites! Services include:\n\n• Simple Websites (1 page) - Portfolios, landing pages\n• Medium Websites (3-5 pages) - Business sites, personal brands\n• Large Websites (6-7+ pages) - Platforms, companies\n\nAll include responsive design, SEO optimization, and can integrate AI features like chatbots, automation, and APIs. What type of website are you looking for?"

  const MaintenanceReply: string :=
    "We offer ongoing maintenance plans:\n\n• Basic (₹1,000/month): Updates, backups, minor fixes\n• Standard (₹2,500/month): Performance monitoring, content updates, security\n• Premium (₹5,000/month): AI optimization, feature updates, priority support\n\nYearly plans offer better rates. What level of support are you looking for?"

  const TimelineReply: string :=
    "Typical timelines:\n\n• Simple website: 1-2 weeks\n• Medium website: 2-4 weeks\n• Large website: 4-8 weeks\n\nTimelines vary based on complexity, AI integrations, and specific requirements. For custom requirements, please contact us through the contact form."

  const TechnologyReply: string :=
    "I build with modern, cutting-edge technologies:\n\n• Next.js & React for fast, SEO-friendly sites\n• Tailwind CSS for beautiful, responsive design\n• AI APIs (OpenAI, Claude, custom models)\n• Node.js for backend services\n• Vercel for reliable hosting\n\nAll sites are optimized for performance, SEO, and scalability."

  const ContactReply: string :=
    "You can reach out through the Contact page on this website. Fill out the form with your name, email, and project details. Looking forward to hearing about your project!"

  const WhyChooseReply: string :=
    "Here's why clients choose to work with me:\n\n• AI-first development approach\n• Clean, future-proof code\n• Fast turnaround times\n• Transparent, honest pricing\n• Long-term partnership mindset\n• Full-stack expertise\n• SEO & performance optimization included\n\nI focus on building websites that drive real business results."

  const FallbackReply: string :=
    "Thanks for your question! I can help you with information about:\n\n• Services & pricing\n• AI integration features\n• Maintenance plans\n• Project timelines\n• Technologies used\n\nWhat would you like to know more about? For custom requirements, please use the contact form."

  /** Every reply the engine can give, pricing first and the fallback last. */
  const AllReplies: seq<string> := [
    SimpleSiteReply, MediumSiteReply, LargeSiteReply, MaintenancePricingReply, ServiceTiersReply,
    AIReply, ServicesReply, MaintenanceReply, TimelineReply, TechnologyReply, ContactReply,
    WhyChooseReply, FallbackReply
  ]

  const PricingReplies: seq<string> := AllReplies[..5]

  /** `generateResponse`: the ordered chain of keyword tests on the lowercased message. */
  function GenerateResponse(userMessage: string): string
  {
    var messageLower := Lower(userMessage);
    if Contains(messageLower, "price") || Contains(messageLower, "pricing") || Contains(messageLower, "cost") then
      if Contains(messageLower, "simple") || Contains(messageLower, "one page") || Contains(messageLower, "1 page") then
        SimpleSiteReply
      else if Contains(messageLower, "medium") || Contains(messageLower, "3") || Contains(messageLower, "5") then
        MediumSiteReply
      else if Contains(messageLower, "large") || Contains(messageLower, "advanced") || Contains(messageLower, "complex") then
        LargeSiteReply
      else if Contains(messageLower, "maintenance") then
        MaintenancePricingReply
      else
        ServiceTiersReply
    else if Contains(messageLower, "ai") || Contains(messageLower, "chatbot") || Contains(messageLower, "automation") then
      AIReply
    else if Contains(messageLower, "service") || Contains(messageLower, "what do you") || Contains(messageLower, "what can you") then
      ServicesReply
    else if Contains(messageLower, "maintenance") || Contains(messageLower, "support") || Contains(messageLower, "update") then
      MaintenanceReply
    else if Contains(messageLower, "how long") || Contains(messageLower, "timeline") || Contains(messageLower, "time") then
      TimelineReply
    else if Contains(messageLower, "tech") || Contains(messageLower, "technology") || Contains(messageLower, "stack") then
      TechnologyReply
    else if Contains(messageLower, "contact") || Contains(messageLower, "reach") || Contains(messageLower, "email") then
      ContactReply
    else if Contains(messageLower, "why") || Contains(messageLower, "choose") || Contains(messageLower, "better") then
      WhyChooseReply
    else
      FallbackReply
  }
}
